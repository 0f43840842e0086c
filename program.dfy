/**
 * The program's entry points and the ledger they act on over time. Each
 * transaction runs one instruction of the program or one direct call to
 * the token program by anybody; one that fails is rolled back whole, so
 * the ledger after it is the ledger before it.
 */
module Program {
  import opened Keys
  import opened Errors
  import opened Tokens
  import opened State
  import opened Escrow
  import opened Market
  import opened Invariants
  import opened Outside

  /** One call of the program's seven instructions, with its accounts and arguments. */
  datatype Instruction =
    | TransactionSetupIx(signers: set<nat>, player: Key, beneficiary: Key, mint: Key, stateBump: u8, escrowBump: u8)
    | DepositByBothPartiesIx(signers: set<nat>, player: Key, beneficiary: Key, mint: Key, amount: u64)
    | TransferToWinnerIx(player: Key, beneficiary: Key, mint: Key, winner: Key, winnerAccount: Key)
    | PullBackIx(player: Key, beneficiary: Key, mint: Key)
    | AmmSetupIx(signers: set<nat>, beneficiary: Key, tokenMint: Key, solMint: Key, feeNumerator: u64, feeDenominator: u64,
                 stateBump: u8, tokenVaultBump: u8, solVaultBump: u8)
    | AddLiquidityIx(signers: set<nat>, beneficiary: Key, tokenAccount: Key, solAccount: Key, tokenAmount: u64, solAmount: u64)
    | SwapTokensIx(signers: set<nat>, player: Key, beneficiary: Key, playerTokenAccount: Key, playerSolAccount: Key,
                   amountIn: u64, solToToken: bool)

  /**
   * Dispatches one instruction to its handler. On a well-formed ledger the
   * result, when there is one, is well formed.
   */
  function Step(w: World, ix: Instruction): (r: Result<World>)
    requires Valid(w)
    ensures r.Ok? ==> Valid(r.value)
  {
    match ix
    case TransactionSetupIx(signers, player, beneficiary, mint, stateBump, escrowBump) =>
      var r := Setup(w, signers, player, beneficiary, mint, stateBump, escrowBump);
      if r.Ok? then SetupPreservesValid(w, signers, player, beneficiary, mint, stateBump, escrowBump); r else r
    case DepositByBothPartiesIx(signers, player, beneficiary, mint, amount) =>
      var r := Deposit(w, signers, player, beneficiary, mint, amount);
      if r.Ok? then DepositPreservesValid(w, signers, player, beneficiary, mint, amount); r else r
    case TransferToWinnerIx(player, beneficiary, mint, winner, winnerAccount) =>
      ValidPayoutFits(w, player, beneficiary, mint);
      var r := TransferToWinner(w, player, beneficiary, mint, winner, winnerAccount);
      if r.Ok? then TransferToWinnerPreservesValid(w, player, beneficiary, mint, winner, winnerAccount); r else r
    case PullBackIx(player, beneficiary, mint) =>
      ValidPayoutFits(w, player, beneficiary, mint);
      var r := PullBack(w, player, beneficiary, mint);
      if r.Ok? then PullBackPreservesValid(w, player, beneficiary, mint); r else r
    case AmmSetupIx(signers, beneficiary, tokenMint, solMint, feeNumerator, feeDenominator, stateBump, tokenVaultBump, solVaultBump) =>
      var r := AmmSetup(w, signers, beneficiary, tokenMint, solMint, feeNumerator, feeDenominator, stateBump, tokenVaultBump, solVaultBump);
      if r.Ok? then
        AmmSetupPreservesValid(w, signers, beneficiary, tokenMint, solMint, feeNumerator, feeDenominator, stateBump, tokenVaultBump, solVaultBump);
        r
      else r
    case AddLiquidityIx(signers, beneficiary, tokenAccount, solAccount, tokenAmount, solAmount) =>
      var r := AddLiquidity(w, signers, beneficiary, tokenAccount, solAccount, tokenAmount, solAmount);
      if r.Ok? then AddLiquidityPreservesValid(w, signers, beneficiary, tokenAccount, solAccount, tokenAmount, solAmount); r else r
    case SwapTokensIx(signers, player, beneficiary, playerTokenAccount, playerSolAccount, amountIn, solToToken) =>
      var r := Swap(w, signers, player, beneficiary, playerTokenAccount, playerSolAccount, amountIn, solToToken);
      if r.Ok? then SwapPreservesValid(w, signers, player, beneficiary, playerTokenAccount, playerSolAccount, amountIn, solToToken); r else r
  }

  /** No instruction changes the supply of any mint. */
  lemma StepConservesSupply(w: World, ix: Instruction, m: Key)
    requires Valid(w)
    requires Step(w, ix).Ok?
    ensures Supply(Step(w, ix).value.accounts, m) == Supply(w.accounts, m)
  {
    match ix
    case TransactionSetupIx(signers, player, beneficiary, mint, stateBump, escrowBump) =>
      SetupConservesSupply(w, signers, player, beneficiary, mint, stateBump, escrowBump, m);
    case DepositByBothPartiesIx(signers, player, beneficiary, mint, amount) =>
      DepositConservesSupply(w, signers, player, beneficiary, mint, amount, m);
    case TransferToWinnerIx(player, beneficiary, mint, winner, winnerAccount) =>
      ValidPayoutFits(w, player, beneficiary, mint);
      TransferToWinnerConservesSupply(w, player, beneficiary, mint, winner, winnerAccount, m);
    case PullBackIx(player, beneficiary, mint) =>
      ValidPayoutFits(w, player, beneficiary, mint);
      PullBackConservesSupply(w, player, beneficiary, mint, m);
    case AmmSetupIx(signers, beneficiary, tokenMint, solMint, feeNumerator, feeDenominator, stateBump, tokenVaultBump, solVaultBump) =>
      AmmSetupConservesSupply(w, signers, beneficiary, tokenMint, solMint, feeNumerator, feeDenominator, stateBump, tokenVaultBump, solVaultBump, m);
    case AddLiquidityIx(signers, beneficiary, tokenAccount, solAccount, tokenAmount, solAmount) =>
      AddLiquidityConservesSupply(w, signers, beneficiary, tokenAccount, solAccount, tokenAmount, solAmount, m);
    case SwapTokensIx(signers, player, beneficiary, playerTokenAccount, playerSolAccount, amountIn, solToToken) =>
      SwapConservesSupply(w, signers, player, beneficiary, playerTokenAccount, playerSolAccount, amountIn, solToToken, m);
  }

  /** A transaction: a call of this program, or a direct call of the token program. */
  datatype Transaction = ProgramTx(ix: Instruction) | TokenTx(call: TokenCall)

  /** Runs one transaction of either kind; a well-formed ledger stays well formed. */
  function Apply(w: World, tx: Transaction): (r: Result<World>)
    requires Valid(w)
    ensures r.Ok? ==> Valid(r.value)
  {
    match tx
    case ProgramTx(ix) => Step(w, ix)
    case TokenTx(call) =>
      var r := Call(w, call);
      if r.Ok? then CallPreservesValid(w, call); r else r
  }

  /** No transaction of either kind changes the supply of any mint. */
  lemma ApplyConservesSupply(w: World, tx: Transaction, m: Key)
    requires Valid(w)
    requires Apply(w, tx).Ok?
    ensures Supply(Apply(w, tx).value.accounts, m) == Supply(w.accounts, m)
  {
    match tx
    case ProgramTx(ix) => StepConservesSupply(w, ix, m);
    case TokenTx(call) => CallConservesSupply(w, call, m);
  }

  /** The ledger after a sequence of transactions, each committed whole or not at all. */
  function Run(w: World, txs: seq<Transaction>): (r: World)
    requires Valid(w)
    ensures Valid(r)
    decreases |txs|
  {
    if txs == [] then w
    else
      var next := Apply(w, txs[0]);
      Run(if next.Ok? then next.value else w, txs[1..])
  }

  /** Over any sequence of transactions the supply of every mint stays the same. */
  lemma {:induction false} RunConservesSupply(w: World, txs: seq<Transaction>, m: Key)
    requires Valid(w)
    ensures Supply(Run(w, txs).accounts, m) == Supply(w.accounts, m)
    decreases |txs|
  {
    if txs != [] {
      var next := Apply(w, txs[0]);
      if next.Ok? {
        ApplyConservesSupply(w, txs[0], m);
        RunConservesSupply(next.value, txs[1..], m);
      } else {
        RunConservesSupply(w, txs[1..], m);
      }
    }
  }

  /**
   * On every ledger reachable from one with no records, through the
   * program's instructions and direct token-program calls by anybody, the
   * payout `2 * amount_of_tokens` of any escrow fits in a `u64`.
   */
  lemma ReachablePayoutFits(accounts: Accounts, txs: seq<Transaction>, player: Key, beneficiary: Key, mint: Key)
    ensures Valid(World(accounts, map[], map[]))
    ensures PayoutFits(Run(World(accounts, map[], map[]), txs), player, beneficiary, mint)
  {
    EmptyValid(accounts);
    ValidPayoutFits(Run(World(accounts, map[], map[]), txs), player, beneficiary, mint);
  }
}
