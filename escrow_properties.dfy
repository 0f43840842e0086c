/** Properties of the escrow that relate several instructions. */
module EscrowProperties {
  import opened Keys
  import opened Errors
  import opened Stages
  import opened Tokens
  import opened State
  import opened Escrow

  /**
   * Setup, a joint deposit of any amount, then a pull-back leaves the ledger
   * exactly as it was: both parties get their balances back and the record
   * and vault are gone.
   */
  lemma {:induction false} PullBackUndoesDeposit(w: World, signers: set<nat>, player: Key, beneficiary: Key, mint: Key,
                                                 stateBump: u8, escrowBump: u8, amount: u64, created: World, funded: World)
    requires Setup(w, signers, player, beneficiary, mint, stateBump, escrowBump) == Ok(created)
    requires Deposit(created, signers, player, beneficiary, mint, amount) == Ok(funded)
    ensures PayoutFits(funded, player, beneficiary, mint)
    ensures PullBack(funded, player, beneficiary, mint) == Ok(w)
  {
    var st, vault := TransactionStateAddress(player, beneficiary, mint), EscrowAccountAddress(player, beneficiary, mint);
    var playerAta, beneficiaryAta := AssociatedTokenAddress(player, mint), AssociatedTokenAddress(beneficiary, mint);
    assert funded.escrows[st].amountOfTokens == amount;
    PullBackSucceeds(funded, player, beneficiary, mint);
    var back := PullBack(funded, player, beneficiary, mint).value;
    RefundLedger(w.accounts, funded.accounts, back.accounts, vault, playerAta, beneficiaryAta, amount);
    RecordDropped(w.escrows, funded.escrows, back.escrows, st);
  }

  /**
   * Setup followed by a joint deposit of `amount` by two distinct parties:
   * the vault holds both deposits, each party's associated account is
   * `amount` down, and nothing else moved.
   */
  lemma {:induction false} SetupThenDeposit(w: World, signers: set<nat>, player: Key, beneficiary: Key, mint: Key,
                                            stateBump: u8, escrowBump: u8, amount: u64, created: World, funded: World)
    requires player != beneficiary
    requires Setup(w, signers, player, beneficiary, mint, stateBump, escrowBump) == Ok(created)
    requires Deposit(created, signers, player, beneficiary, mint, amount) == Ok(funded)
    ensures var st, vault := TransactionStateAddress(player, beneficiary, mint), EscrowAccountAddress(player, beneficiary, mint);
      var playerAta, beneficiaryAta := AssociatedTokenAddress(player, mint), AssociatedTokenAddress(beneficiary, mint);
      && st !in w.escrows && vault !in w.accounts
      && playerAta in w.accounts && beneficiaryAta in w.accounts
      && funded.accounts == w.accounts[vault := TokenAccount(mint, st, 2 * amount)]
                                      [playerAta := w.accounts[playerAta].(amount := w.accounts[playerAta].amount - amount)]
                                      [beneficiaryAta := w.accounts[beneficiaryAta].(amount := w.accounts[beneficiaryAta].amount - amount)]
      && funded.escrows.Keys == w.escrows.Keys + {st}
      && (forall k :: k in w.escrows ==> funded.escrows[k] == w.escrows[k])
      && funded.escrows[st].amountOfTokens == amount && funded.escrows[st].stage == ToCode(FundsDeposited)
      && funded.markets == w.markets
  {
    var st, vault := TransactionStateAddress(player, beneficiary, mint), EscrowAccountAddress(player, beneficiary, mint);
    var playerAta, beneficiaryAta := AssociatedTokenAddress(player, mint), AssociatedTokenAddress(beneficiary, mint);
    var expected := w.accounts[vault := TokenAccount(mint, st, 2 * amount)]
                              [playerAta := w.accounts[playerAta].(amount := w.accounts[playerAta].amount - amount)]
                              [beneficiaryAta := w.accounts[beneficiaryAta].(amount := w.accounts[beneficiaryAta].amount - amount)];
    assert funded.accounts == expected by {
      assert funded.accounts.Keys == expected.Keys;
      forall k | k in expected
        ensures funded.accounts[k] == expected[k]
      {
        if k == vault || k == playerAta || k == beneficiaryAta {
          assert funded.accounts[k].amount == expected[k].amount;
        }
      }
    }
    FromToCode(FundsDeposited);
  }

  /**
   * Setup, a joint deposit of `amount`, then a payout to one of the two
   * parties: the winner ends `amount` up and the loser `amount` down, and
   * nothing else on the ledger differs from before the setup.
   */
  lemma {:induction false} WinnerGainsLoserLoses(w: World, signers: set<nat>, player: Key, beneficiary: Key, mint: Key,
                                                 stateBump: u8, escrowBump: u8, amount: u64, created: World, funded: World,
                                                 winner: Key, loser: Key)
    requires player != beneficiary
    requires (winner, loser) == (player, beneficiary) || (winner, loser) == (beneficiary, player)
    requires Setup(w, signers, player, beneficiary, mint, stateBump, escrowBump) == Ok(created)
    requires Deposit(created, signers, player, beneficiary, mint, amount) == Ok(funded)
    requires AssociatedTokenAddress(winner, mint) in w.accounts
    requires w.accounts[AssociatedTokenAddress(winner, mint)].amount + amount <= MAX_U64
    ensures PayoutFits(funded, player, beneficiary, mint)
    ensures TransferToWinner(funded, player, beneficiary, mint, winner, AssociatedTokenAddress(winner, mint)).Ok?
    ensures AssociatedTokenAddress(loser, mint) in w.accounts && w.accounts[AssociatedTokenAddress(loser, mint)].amount >= amount
    ensures var done := TransferToWinner(funded, player, beneficiary, mint, winner, AssociatedTokenAddress(winner, mint)).value;
      done.escrows == w.escrows && done.markets == w.markets
    ensures var winnerAta, loserAta := AssociatedTokenAddress(winner, mint), AssociatedTokenAddress(loser, mint);
      var done := TransferToWinner(funded, player, beneficiary, mint, winner, winnerAta).value;
      done.accounts == w.accounts[winnerAta := w.accounts[winnerAta].(amount := w.accounts[winnerAta].amount + amount)]
                                 [loserAta := w.accounts[loserAta].(amount := w.accounts[loserAta].amount - amount)]
  {
    FundedByBoth(w, signers, player, beneficiary, mint, stateBump, escrowBump, amount, created, funded, winner, loser);
    PayoutAfterFunding(w, funded, player, beneficiary, mint, amount, winner, loser);
  }

  /** The payout half of `WinnerGainsLoserLoses`, from the funded ledger. */
  lemma PayoutAfterFunding(w: World, funded: World, player: Key, beneficiary: Key, mint: Key, amount: u64, winner: Key, loser: Key)
    requires FundedFrom(w, funded, player, beneficiary, mint, amount, winner, loser)
    requires w.accounts[AssociatedTokenAddress(winner, mint)].amount + amount <= MAX_U64
    ensures PayoutFits(funded, player, beneficiary, mint)
    ensures TransferToWinner(funded, player, beneficiary, mint, winner, AssociatedTokenAddress(winner, mint)).Ok?
    ensures var winnerAta, loserAta := AssociatedTokenAddress(winner, mint), AssociatedTokenAddress(loser, mint);
      var done := TransferToWinner(funded, player, beneficiary, mint, winner, winnerAta).value;
      && done.escrows == w.escrows && done.markets == w.markets
      && done.accounts == w.accounts[winnerAta := w.accounts[winnerAta].(amount := w.accounts[winnerAta].amount + amount)]
                                    [loserAta := w.accounts[loserAta].(amount := w.accounts[loserAta].amount - amount)]
  {
    var st, vault := TransactionStateAddress(player, beneficiary, mint), EscrowAccountAddress(player, beneficiary, mint);
    var winnerAta, loserAta := AssociatedTokenAddress(winner, mint), AssociatedTokenAddress(loser, mint);
    FromToCode(FundsDeposited);
    AnyOwnerCanBePaid(funded, player, beneficiary, mint, winner, winnerAta);
    var done := TransferToWinner(funded, player, beneficiary, mint, winner, winnerAta).value;
    PayoutLedger(w.accounts, funded.accounts, done.accounts, vault, winnerAta, loserAta, amount);
    RecordDropped(w.escrows, funded.escrows, done.escrows, st);
  }

  /**
   * The ledger `funded` is `w` plus a vault holding both deposits of
   * `amount`, with `amount` taken from each of the two parties' accounts.
   */
  predicate FundedFrom(w: World, funded: World, player: Key, beneficiary: Key, mint: Key, amount: u64, winner: Key, loser: Key)
  {
    var st, vault := TransactionStateAddress(player, beneficiary, mint), EscrowAccountAddress(player, beneficiary, mint);
    var winnerAta, loserAta := AssociatedTokenAddress(winner, mint), AssociatedTokenAddress(loser, mint);
    && st !in w.escrows && vault !in w.accounts && winnerAta in w.accounts && loserAta in w.accounts
    && winnerAta != loserAta
    && st in funded.escrows && funded.escrows[st].stage == ToCode(FundsDeposited)
    && funded.escrows[st].amountOfTokens == amount
    && funded.escrows.Keys == w.escrows.Keys + {st}
    && (forall k :: k in w.escrows ==> funded.escrows[k] == w.escrows[k])
    && funded.markets == w.markets
    && funded.accounts.Keys == w.accounts.Keys + {vault}
    && funded.accounts[vault].amount == 2 * amount && funded.accounts[vault].owner == st && funded.accounts[vault].mint == mint
    && (forall k :: k in w.accounts && k != winnerAta && k != loserAta ==> funded.accounts[k] == w.accounts[k])
    && w.accounts[winnerAta].amount >= amount && w.accounts[loserAta].amount >= amount
    && funded.accounts[winnerAta] == w.accounts[winnerAta].(amount := w.accounts[winnerAta].amount - amount)
    && funded.accounts[loserAta] == w.accounts[loserAta].(amount := w.accounts[loserAta].amount - amount)
    && w.accounts[winnerAta].owner == winner && w.accounts[winnerAta].mint == mint
  }

  /** What a joint deposit right after setup leaves on the ledger, stated per party. */
  lemma FundedByBoth(w: World, signers: set<nat>, player: Key, beneficiary: Key, mint: Key,
                     stateBump: u8, escrowBump: u8, amount: u64, created: World, funded: World, winner: Key, loser: Key)
    requires player != beneficiary
    requires (winner, loser) == (player, beneficiary) || (winner, loser) == (beneficiary, player)
    requires Setup(w, signers, player, beneficiary, mint, stateBump, escrowBump) == Ok(created)
    requires Deposit(created, signers, player, beneficiary, mint, amount) == Ok(funded)
    ensures FundedFrom(w, funded, player, beneficiary, mint, amount, winner, loser)
  {
    SetupThenDeposit(w, signers, player, beneficiary, mint, stateBump, escrowBump, amount, created, funded);
  }

  /** A record added to a table and then deleted leaves the table as it was. */
  lemma RecordDropped(before: map<Key, TransactionState>, funded: map<Key, TransactionState>,
                      done: map<Key, TransactionState>, st: Key)
    requires st !in before
    requires funded.Keys == before.Keys + {st}
    requires forall k :: k in before ==> funded[k] == before[k]
    requires done.Keys == funded.Keys - {st}
    requires forall k :: k in done ==> done[k] == funded[k]
    ensures done == before
  {
    assert done.Keys == before.Keys;
  }

  /**
   * Map bookkeeping behind `PullBackUndoesDeposit`: a ledger that gained a
   * vault and debited the parties' accounts, then credited them back and
   * dropped the vault, is the first ledger again.
   */
  lemma RefundLedger(before: Accounts, funded: Accounts, back: Accounts, vault: Key, playerAta: Key, beneficiaryAta: Key, amount: u64)
    requires vault !in before && playerAta in before && beneficiaryAta in before
    requires funded.Keys == before.Keys + {vault}
    requires forall k :: k in before && k != playerAta && k != beneficiaryAta ==> funded[k] == before[k]
    requires forall k :: k in before ==> funded[k].owner == before[k].owner && funded[k].mint == before[k].mint
    requires playerAta != beneficiaryAta ==>
               && funded[playerAta].amount == before[playerAta].amount - amount
               && funded[beneficiaryAta].amount == before[beneficiaryAta].amount - amount
    requires playerAta == beneficiaryAta ==> funded[playerAta].amount == before[playerAta].amount - 2 * amount
    requires back.Keys == funded.Keys - {vault}
    requires forall k :: k in back && k != playerAta && k != beneficiaryAta ==> back[k] == funded[k]
    requires forall k :: k in back ==> back[k].owner == funded[k].owner && back[k].mint == funded[k].mint
    requires playerAta != beneficiaryAta ==>
               && back[playerAta].amount == funded[playerAta].amount + amount
               && back[beneficiaryAta].amount == funded[beneficiaryAta].amount + amount
    requires playerAta == beneficiaryAta ==> back[playerAta].amount == funded[playerAta].amount + 2 * amount
    ensures back == before
  {
    assert back.Keys == before.Keys;
    forall k | k in before
      ensures back[k] == before[k]
    {
      if k == playerAta || k == beneficiaryAta {
        assert back[k].amount == before[k].amount;
      }
    }
  }

  /**
   * Map bookkeeping behind `WinnerGainsLoserLoses`: a ledger that gained a
   * vault and debited two accounts, then paid the vault to one of them and
   * dropped it, differs from the first ledger by the two debits and credits.
   */
  lemma PayoutLedger(before: Accounts, funded: Accounts, done: Accounts, vault: Key, winnerAta: Key, loserAta: Key, amount: u64)
    requires vault !in before && winnerAta in before && loserAta in before && winnerAta != loserAta
    requires before[winnerAta].amount >= amount
    requires before[winnerAta].amount + amount <= MAX_U64
    requires before[loserAta].amount >= amount
    requires funded.Keys == before.Keys + {vault}
    requires forall k :: k in before && k != winnerAta && k != loserAta ==> funded[k] == before[k]
    requires funded[winnerAta] == before[winnerAta].(amount := before[winnerAta].amount - amount)
    requires funded[loserAta] == before[loserAta].(amount := before[loserAta].amount - amount)
    requires done.Keys == funded.Keys - {vault}
    requires forall k :: k in done && k != winnerAta ==> done[k] == funded[k]
    requires done[winnerAta].amount == funded[winnerAta].amount + 2 * amount
    requires done[winnerAta].owner == funded[winnerAta].owner && done[winnerAta].mint == funded[winnerAta].mint
    ensures done == before[winnerAta := before[winnerAta].(amount := before[winnerAta].amount + amount)]
                          [loserAta := before[loserAta].(amount := before[loserAta].amount - amount)]
  {
    var expected := before[winnerAta := before[winnerAta].(amount := before[winnerAta].amount + amount)]
                          [loserAta := before[loserAta].(amount := before[loserAta].amount - amount)];
    assert done.Keys == expected.Keys;
    forall k | k in expected
      ensures done[k] == expected[k]
    {
      if k == winnerAta {
        assert done[k].amount == expected[k].amount;
      }
    }
  }

  /**
   * The payout goes to whatever token account `winner` owns in the escrow's
   * mint: nothing ties `winner` to the player or the beneficiary.
   */
  lemma AnyOwnerCanBePaid(w: World, player: Key, beneficiary: Key, mint: Key, winner: Key, winnerAccount: Key)
    requires var st, vault := TransactionStateAddress(player, beneficiary, mint), EscrowAccountAddress(player, beneficiary, mint);
      && st in w.escrows && w.escrows[st].stage == ToCode(FundsDeposited)
      && vault in w.accounts && w.accounts[vault].amount == 2 * w.escrows[st].amountOfTokens
      && w.accounts[vault].owner == st && w.accounts[vault].mint == mint
      && winnerAccount in w.accounts && winnerAccount != vault
      && w.accounts[winnerAccount].owner == winner && w.accounts[winnerAccount].mint == mint
      && w.accounts[winnerAccount].amount + 2 * w.escrows[st].amountOfTokens <= MAX_U64
    ensures PayoutFits(w, player, beneficiary, mint)
    ensures TransferToWinner(w, player, beneficiary, mint, winner, winnerAccount).Ok?
  {
    FromToCode(FundsDeposited);
  }

  /**
   * The pull-back of a funded escrow goes through when its accounts pass
   * the constraints, the vault holds both deposits and each party's account
   * has room for its refund.
   */
  lemma PullBackSucceeds(w: World, player: Key, beneficiary: Key, mint: Key)
    requires var st, vault := TransactionStateAddress(player, beneficiary, mint), EscrowAccountAddress(player, beneficiary, mint);
      var playerAta, beneficiaryAta := AssociatedTokenAddress(player, mint), AssociatedTokenAddress(beneficiary, mint);
      && PullBackAccounts(w, player, beneficiary, mint) == Pass
      && w.escrows[st].stage == ToCode(FundsDeposited)
      && w.accounts[vault].amount == 2 * w.escrows[st].amountOfTokens
      && w.accounts[vault].owner == st && w.accounts[vault].mint == mint
      && (player != beneficiary ==>
            && w.accounts[playerAta].amount + w.escrows[st].amountOfTokens <= MAX_U64
            && w.accounts[beneficiaryAta].amount + w.escrows[st].amountOfTokens <= MAX_U64)
      && (player == beneficiary ==> w.accounts[playerAta].amount + 2 * w.escrows[st].amountOfTokens <= MAX_U64)
    ensures PayoutFits(w, player, beneficiary, mint)
    ensures PullBack(w, player, beneficiary, mint).Ok?
  {
    var st, vault := TransactionStateAddress(player, beneficiary, mint), EscrowAccountAddress(player, beneficiary, mint);
    var playerAta, beneficiaryAta := AssociatedTokenAddress(player, mint), AssociatedTokenAddress(beneficiary, mint);
    var a := w.escrows[st].amountOfTokens;
    FromToCode(FundsDeposited);
    var toPlayer := Transfer(w.accounts, st, vault, playerAta, a);
    assert toPlayer.Ok?;
    var toBoth := Transfer(toPlayer.value, st, vault, beneficiaryAta, a);
    assert toBoth.Ok?;
    assert Close(toBoth.value, vault, st).Ok?;
  }

  /**
   * Tokens in the vault beyond both deposits (a transfer anybody can make)
   * block both ways out of `FundsDeposited`: the payout leaves the vault
   * non-empty so it cannot be closed, and the pull-back's assertion fails.
   * This is the behaviour for a non-native mint, the only kind `Tokens.Close`
   * models; over wrapped SOL the token program closes the non-empty vault,
   * so only the pull-back is blocked.
   */
  lemma SurplusBlocksResolution(w: World, player: Key, beneficiary: Key, mint: Key, winner: Key, winnerAccount: Key)
    requires var st, vault := TransactionStateAddress(player, beneficiary, mint), EscrowAccountAddress(player, beneficiary, mint);
      && st in w.escrows && vault in w.accounts
      && 2 * w.escrows[st].amountOfTokens < w.accounts[vault].amount
    ensures PayoutFits(w, player, beneficiary, mint)
    ensures TransferToWinner(w, player, beneficiary, mint, winner, winnerAccount).Err?
    ensures PullBack(w, player, beneficiary, mint).Err?
  {
  }

  /**
   * Once the accounts check out, the joint deposit succeeds exactly when the
   * record is still `Initialized`, the vault is of the escrow's mint, each
   * party's associated account holds its share (one account holds both
   * shares when the parties are the same key) and the vault has room for
   * both deposits.
   */
  lemma DepositSucceeds(w: World, signers: set<nat>, player: Key, beneficiary: Key, mint: Key, amount: u64)
    requires DepositAccounts(w, signers, player, beneficiary, mint) == Pass
    ensures var st, vault := TransactionStateAddress(player, beneficiary, mint), EscrowAccountAddress(player, beneficiary, mint);
      var playerAta, beneficiaryAta := AssociatedTokenAddress(player, mint), AssociatedTokenAddress(beneficiary, mint);
      Deposit(w, signers, player, beneficiary, mint, amount).Ok? <==>
        && w.escrows[st].stage == ToCode(Initialized)
        && w.accounts[vault].mint == mint
        && (player != beneficiary ==> amount <= w.accounts[playerAta].amount && amount <= w.accounts[beneficiaryAta].amount)
        && (player == beneficiary ==> 2 * amount <= w.accounts[playerAta].amount)
        && w.accounts[vault].amount + 2 * amount <= MAX_U64
  {
    var st, vault := TransactionStateAddress(player, beneficiary, mint), EscrowAccountAddress(player, beneficiary, mint);
    var playerAta, beneficiaryAta := AssociatedTokenAddress(player, mint), AssociatedTokenAddress(beneficiary, mint);
    var stage := FromCode(w.escrows[st].stage);
    FromToCode(Initialized);
    assert stage == Ok(Initialized) <==> w.escrows[st].stage == ToCode(Initialized);
    assert vault != playerAta && vault != beneficiaryAta;
    var afterPlayer := Transfer(w.accounts, player, playerAta, vault, amount);
    if afterPlayer.Ok? {
      assert afterPlayer.value[vault].amount == w.accounts[vault].amount + amount;
      assert afterPlayer.value[beneficiaryAta].amount ==
        if player == beneficiary then w.accounts[playerAta].amount - amount else w.accounts[beneficiaryAta].amount;
    }
  }

  /**
   * A second setup for the same (player, beneficiary, mint) fails while the
   * first escrow is live: at most one escrow per triple.
   */
  lemma OneEscrowPerTriple(w: World, signers: set<nat>, player: Key, beneficiary: Key, mint: Key, stateBump: u8, escrowBump: u8)
    requires TransactionStateAddress(player, beneficiary, mint) in w.escrows
    ensures Setup(w, signers, player, beneficiary, mint, stateBump, escrowBump).Err?
  {
  }

  /** Once deposited, a second joint deposit is rejected with `StageInvalid`. */
  lemma NoSecondDeposit(w: World, signers: set<nat>, player: Key, beneficiary: Key, mint: Key, amount: u64, again: u64)
    requires Deposit(w, signers, player, beneficiary, mint, amount).Ok?
    ensures Deposit(Deposit(w, signers, player, beneficiary, mint, amount).value, signers, player, beneficiary, mint, again) == Err(StageInvalid)
  {
    var funded := Deposit(w, signers, player, beneficiary, mint, amount).value;
    assert DepositAccounts(funded, signers, player, beneficiary, mint) == Pass;
  }
}
