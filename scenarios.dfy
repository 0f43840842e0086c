/**
 * The two integration suites' flows replayed on concrete ledgers: the
 * escrow with 100 tokens per side and a deposit of 10, and the market with
 * no fee, a first deposit of 50 tokens and 2 sol, and two swaps. Amounts
 * are in base units (9 decimals).
 */
module Scenarios {
  import opened Keys
  import opened Errors
  import opened Tokens
  import opened State
  import opened Escrow
  import opened Market
  import EscrowProperties
  import Pricing

  const UNIT: int := 1_000_000_000

  const PlayerKey: Key := Wallet(1)
  const BeneficiaryKey: Key := Wallet(2)
  /**
   * The two mints. A mint's address is the public key of a fresh keypair
   * (the suites' `createMint`), so it is a `Wallet` key; nothing in the
   * flows has a mint sign.
   */
  const TokenMint: Key := Wallet(3)
  const SolMint: Key := Wallet(4)

  // ----- tests/DungeonNFTEscrow.ts -----

  function PlayerAta(): Key { AssociatedTokenAddress(PlayerKey, TokenMint) }
  function BeneficiaryAta(): Key { AssociatedTokenAddress(BeneficiaryKey, TokenMint) }
  function Vault(): Key { EscrowAccountAddress(PlayerKey, BeneficiaryKey, TokenMint) }
  function Record(): Key { TransactionStateAddress(PlayerKey, BeneficiaryKey, TokenMint) }

  /** Both parties hold 100 tokens; nothing else exists. */
  function EscrowStart(): World
  {
    World(map[PlayerAta() := TokenAccount(TokenMint, PlayerKey, 100 * UNIT),
              BeneficiaryAta() := TokenAccount(TokenMint, BeneficiaryKey, 100 * UNIT)],
          map[], map[])
  }

  /** The ledger after setup and a joint deposit of 10 tokens. */
  function EscrowFunded(): Result<World>
  {
    var created :- Setup(EscrowStart(), {1}, PlayerKey, BeneficiaryKey, TokenMint, 255, 254);
    Deposit(created, {1, 2}, PlayerKey, BeneficiaryKey, TokenMint, 10 * UNIT)
  }

  /** Setup signed by the player alone, then the deposit: 90 tokens each, 20 in the vault. */
  lemma EscrowDepositOracle()
    ensures EscrowFunded().Ok?
    ensures var funded := EscrowFunded().value;
      && funded.accounts[PlayerAta()].amount == 90 * UNIT
      && funded.accounts[BeneficiaryAta()].amount == 90 * UNIT
      && funded.accounts[Vault()].amount == 20 * UNIT
      && funded.escrows[Record()].amountOfTokens == 10 * UNIT
      && PayoutFits(funded, PlayerKey, BeneficiaryKey, TokenMint)
  {
    var created := Setup(EscrowStart(), {1}, PlayerKey, BeneficiaryKey, TokenMint, 255, 254);
    assert created.Ok?;
  }

  /** Paying either party: the winner's account goes from 90 to 110 tokens, the vault and record are gone. */
  lemma EscrowPayoutOracle(winner: Key)
    requires winner == PlayerKey || winner == BeneficiaryKey
    ensures EscrowFunded().Ok? && PayoutFits(EscrowFunded().value, PlayerKey, BeneficiaryKey, TokenMint)
    ensures var paid := TransferToWinner(EscrowFunded().value, PlayerKey, BeneficiaryKey, TokenMint, winner, AssociatedTokenAddress(winner, TokenMint));
      && paid.Ok?
      && paid.value.accounts[AssociatedTokenAddress(winner, TokenMint)].amount == 110 * UNIT
      && Vault() !in paid.value.accounts
      && Record() !in paid.value.escrows
  {
    EscrowDepositOracle();
    var funded := EscrowFunded().value;
    EscrowProperties.AnyOwnerCanBePaid(funded, PlayerKey, BeneficiaryKey, TokenMint, winner, AssociatedTokenAddress(winner, TokenMint));
  }

  /** Pulling back instead: both parties are at 100 tokens again and the ledger is as it started. */
  lemma EscrowPullBackOracle()
    ensures EscrowFunded().Ok? && PayoutFits(EscrowFunded().value, PlayerKey, BeneficiaryKey, TokenMint)
    ensures PullBack(EscrowFunded().value, PlayerKey, BeneficiaryKey, TokenMint) == Ok(EscrowStart())
    ensures EscrowStart().accounts[PlayerAta()].amount == EscrowStart().accounts[BeneficiaryAta()].amount == 100 * UNIT
  {
    EscrowDepositOracle();
    var created := Setup(EscrowStart(), {1}, PlayerKey, BeneficiaryKey, TokenMint, 255, 254).value;
    EscrowProperties.PullBackUndoesDeposit(EscrowStart(), {1, 2}, PlayerKey, BeneficiaryKey, TokenMint, 255, 254, 10 * UNIT,
                                           created, EscrowFunded().value);
  }

  // ----- tests/DungeonNFTAMM.ts -----

  function MarketRecord(): Key { MarketStateAddress(BeneficiaryKey) }
  function TokenVault(): Key { TokenVaultAddress(MarketRecord(), BeneficiaryKey) }
  function SolVault(): Key { SolVaultAddress(MarketRecord(), BeneficiaryKey) }
  function OwnTokens(owner: Key): Key { AssociatedTokenAddress(owner, TokenMint) }
  function OwnSol(owner: Key): Key { AssociatedTokenAddress(owner, SolMint) }

  /** Beneficiary and player each hold 100 tokens and 5 sol. */
  function MarketStart(): World
  {
    World(map[OwnTokens(BeneficiaryKey) := TokenAccount(TokenMint, BeneficiaryKey, 100 * UNIT),
              OwnSol(BeneficiaryKey) := TokenAccount(SolMint, BeneficiaryKey, 5 * UNIT),
              OwnTokens(PlayerKey) := TokenAccount(TokenMint, PlayerKey, 100 * UNIT),
              OwnSol(PlayerKey) := TokenAccount(SolMint, PlayerKey, 5 * UNIT)],
          map[], map[])
  }

  /** The balances a step of the market flow leaves on the six accounts involved. */
  predicate Balances(w: World, beneficiaryTokens: int, beneficiarySol: int, playerTokens: int, playerSol: int,
                     tokenVault: int, solVault: int)
  {
    && OwnTokens(BeneficiaryKey) in w.accounts && w.accounts[OwnTokens(BeneficiaryKey)].amount == beneficiaryTokens
    && OwnSol(BeneficiaryKey) in w.accounts && w.accounts[OwnSol(BeneficiaryKey)].amount == beneficiarySol
    && OwnTokens(PlayerKey) in w.accounts && w.accounts[OwnTokens(PlayerKey)].amount == playerTokens
    && OwnSol(PlayerKey) in w.accounts && w.accounts[OwnSol(PlayerKey)].amount == playerSol
    && TokenVault() in w.accounts && w.accounts[TokenVault()].amount == tokenVault
    && SolVault() in w.accounts && w.accounts[SolVault()].amount == solVault
  }

  /** Who owns the six accounts and of which mint, and the market's fee of 0/1000. */
  predicate Shape(w: World)
  {
    && OwnTokens(BeneficiaryKey) in w.accounts && OwnSol(BeneficiaryKey) in w.accounts
    && OwnTokens(PlayerKey) in w.accounts && OwnSol(PlayerKey) in w.accounts
    && TokenVault() in w.accounts && SolVault() in w.accounts
    && w.accounts[OwnTokens(BeneficiaryKey)].owner == BeneficiaryKey && w.accounts[OwnTokens(BeneficiaryKey)].mint == TokenMint
    && w.accounts[OwnSol(BeneficiaryKey)].owner == BeneficiaryKey && w.accounts[OwnSol(BeneficiaryKey)].mint == SolMint
    && w.accounts[OwnTokens(PlayerKey)].owner == PlayerKey && w.accounts[OwnTokens(PlayerKey)].mint == TokenMint
    && w.accounts[OwnSol(PlayerKey)].owner == PlayerKey && w.accounts[OwnSol(PlayerKey)].mint == SolMint
    && w.accounts[TokenVault()].owner == MarketRecord() && w.accounts[TokenVault()].mint == TokenMint
    && w.accounts[SolVault()].owner == MarketRecord() && w.accounts[SolVault()].mint == SolMint
    && MarketRecord() in w.markets
    && w.markets[MarketRecord()].feeNumerator == 0 && w.markets[MarketRecord()].feeDenominator == 1000
  }

  /** A fee of 0/1000, then a first deposit of 50 tokens and 2 sol. */
  function Liquid(): Result<World>
  {
    var created :- AmmSetup(MarketStart(), {2}, BeneficiaryKey, TokenMint, SolMint, 0, 1000, 255, 254, 253);
    AddLiquidity(created, {2}, BeneficiaryKey, OwnTokens(BeneficiaryKey), OwnSol(BeneficiaryKey), 50 * UNIT, 2 * UNIT)
  }

  /** The player swaps 1 sol for tokens. */
  function FirstSwap(): Result<World>
  {
    var liquid :- Liquid();
    Swap(liquid, {1}, PlayerKey, BeneficiaryKey, OwnTokens(PlayerKey), OwnSol(PlayerKey), UNIT, true)
  }

  /** The player swaps 50 tokens back for sol. */
  function SecondSwap(): Result<World>
  {
    var swapped :- FirstSwap();
    Swap(swapped, {1}, PlayerKey, BeneficiaryKey, OwnTokens(PlayerKey), OwnSol(PlayerKey), 50 * UNIT, false)
  }

  lemma LiquidityOracle()
    ensures Liquid().Ok?
    ensures Shape(Liquid().value)
    ensures Balances(Liquid().value, 50 * UNIT, 3 * UNIT, 100 * UNIT, 5 * UNIT, 50 * UNIT, 2 * UNIT)
  {
    var start := MarketStart();
    assert !InUse(start, MarketRecord()) && !InUse(start, TokenVault()) && !InUse(start, SolVault());
    var created := AmmSetup(start, {2}, BeneficiaryKey, TokenMint, SolMint, 0, 1000, 255, 254, 253);
    assert created.Ok?;
    var c := created.value;
    assert Balances(c, 100 * UNIT, 5 * UNIT, 100 * UNIT, 5 * UNIT, 0, 0);
    assert c.accounts[OwnTokens(BeneficiaryKey)].owner == BeneficiaryKey && c.accounts[OwnSol(BeneficiaryKey)].owner == BeneficiaryKey;
    assert c.accounts[OwnTokens(BeneficiaryKey)].mint == TokenMint && c.accounts[TokenVault()].mint == TokenMint;
    assert c.accounts[OwnSol(BeneficiaryKey)].mint == SolMint && c.accounts[SolVault()].mint == SolMint;
    assert LiquidityAccounts(c, {2}, BeneficiaryKey, OwnTokens(BeneficiaryKey), OwnSol(BeneficiaryKey)) == Pass;
    assert Pricing.LiquidityDeposit(50 * UNIT, 2 * UNIT, 0, 0) == Ok(2 * UNIT);
    var tokensIn := Transfer(c.accounts, BeneficiaryKey, OwnTokens(BeneficiaryKey), TokenVault(), 50 * UNIT);
    assert tokensIn.Ok?;
    var bothIn := Transfer(tokensIn.value, BeneficiaryKey, OwnSol(BeneficiaryKey), SolVault(), 2 * UNIT);
    assert bothIn.Ok?;
    var liquid := AddLiquidity(c, {2}, BeneficiaryKey, OwnTokens(BeneficiaryKey), OwnSol(BeneficiaryKey), 50 * UNIT, 2 * UNIT);
    assert liquid == Ok(World(bothIn.value, c.escrows, c.markets));
  }

  /**
   * One swap by the player on a ledger of this shape, with the output
   * `SwapOut` gives, moves the four balances and keeps the shape.
   */
  lemma SwapStep(w: World, amountIn: u64, solToToken: bool, amountOut: u64)
    requires Shape(w)
    requires var (source, inVault, outVault) :=
               if solToToken then (OwnSol(PlayerKey), SolVault(), TokenVault()) else (OwnTokens(PlayerKey), TokenVault(), SolVault());
      var destination := if solToToken then OwnTokens(PlayerKey) else OwnSol(PlayerKey);
      && amountIn <= w.accounts[source].amount
      && Pricing.SwapOut(amountIn, 0, 1000, w.accounts[inVault].amount, w.accounts[outVault].amount) == Ok(amountOut)
      && w.accounts[inVault].amount + amountIn <= MAX_U64
      && w.accounts[destination].amount + amountOut <= MAX_U64
    ensures var r := Swap(w, {1}, PlayerKey, BeneficiaryKey, OwnTokens(PlayerKey), OwnSol(PlayerKey), amountIn, solToToken);
      && r.Ok? && Shape(r.value)
      && var (source, inVault, outVault) :=
           if solToToken then (OwnSol(PlayerKey), SolVault(), TokenVault()) else (OwnTokens(PlayerKey), TokenVault(), SolVault());
      && var destination := if solToToken then OwnTokens(PlayerKey) else OwnSol(PlayerKey);
      && r.value.accounts[source].amount == w.accounts[source].amount - amountIn
      && r.value.accounts[inVault].amount == w.accounts[inVault].amount + amountIn
      && r.value.accounts[outVault].amount == w.accounts[outVault].amount - amountOut
      && r.value.accounts[destination].amount == w.accounts[destination].amount + amountOut
      && r.value.accounts[OwnTokens(BeneficiaryKey)] == w.accounts[OwnTokens(BeneficiaryKey)]
      && r.value.accounts[OwnSol(BeneficiaryKey)] == w.accounts[OwnSol(BeneficiaryKey)]
  {
    var route := Direction(solToToken, OwnTokens(PlayerKey), OwnSol(PlayerKey), TokenVault(), SolVault());
    assert SwapAccounts(w, {1}, PlayerKey, BeneficiaryKey, OwnTokens(PlayerKey), OwnSol(PlayerKey)) == Pass;
    var paid := Transfer(w.accounts, PlayerKey, route.source, route.inVault, amountIn);
    assert paid.Ok?;
    var swapped := Transfer(paid.value, MarketRecord(), route.outVault, route.destination, amountOut);
    assert swapped.Ok?;
    var r := Swap(w, {1}, PlayerKey, BeneficiaryKey, OwnTokens(PlayerKey), OwnSol(PlayerKey), amountIn, solToToken);
    assert r == Ok(World(swapped.value, w.escrows, w.markets));
  }

  /** 1 sol buys 16,666,666,667 tokens: the vaults end at 33,333,333,333 tokens and 3 sol. */
  lemma FirstSwapOracle()
    ensures FirstSwap().Ok? && Shape(FirstSwap().value)
    ensures Balances(FirstSwap().value, 50 * UNIT, 3 * UNIT, 116_666_666_667, 4 * UNIT, 33_333_333_333, 3 * UNIT)
  {
    LiquidityOracle();
    Pricing.FirstSwapPrice();
    var liquid := Liquid().value;
    SwapStep(liquid, UNIT, true, 16_666_666_667);
    assert FirstSwap() == Swap(liquid, {1}, PlayerKey, BeneficiaryKey, OwnTokens(PlayerKey), OwnSol(PlayerKey), UNIT, true);
  }

  /** 50 tokens buy 1,800,000,001 sol: the vaults end at 83,333,333,333 tokens and 1,199,999,999 sol. */
  lemma SecondSwapOracle()
    ensures SecondSwap().Ok?
    ensures Balances(SecondSwap().value, 50 * UNIT, 3 * UNIT, 66_666_666_667, 5_800_000_001, 83_333_333_333, 1_199_999_999)
  {
    FirstSwapOracle();
    Pricing.SecondSwapPrice();
    var swapped := FirstSwap().value;
    SwapStep(swapped, 50 * UNIT, false, 1_800_000_001);
    assert SecondSwap() == Swap(swapped, {1}, PlayerKey, BeneficiaryKey, OwnTokens(PlayerKey), OwnSol(PlayerKey), 50 * UNIT, false);
  }
}
