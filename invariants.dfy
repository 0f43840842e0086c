/**
 * What every instruction keeps true of the ledger: no instruction creates
 * or destroys tokens of any mint, and every live escrow record and market
 * record stays well formed. In particular, on a well-formed ledger the
 * payout `2 * amount_of_tokens` always fits in a `u64`.
 */
module Invariants {
  import opened Keys
  import opened Errors
  import opened Stages
  import opened Tokens
  import opened State
  import opened Pricing
  import opened Escrow
  import opened Market

  // ----- which balances can fall -----

  /**
   * From `before` to `after`, every account outside `closed` survives with
   * its mint and authority, and only an account whose authority is in
   * `authorities` can lose tokens.
   */
  predicate Keeps(before: Accounts, after: Accounts, authorities: set<Key>, closed: set<Key>)
  {
    && (forall k :: k in before && k !in closed ==> k in after && after[k].owner == before[k].owner && after[k].mint == before[k].mint)
    && (forall k :: k in before && k in after && k !in closed && before[k].owner !in authorities ==> after[k].amount >= before[k].amount)
  }

  lemma KeepsChain(a: Accounts, b: Accounts, c: Accounts, auth1: set<Key>, closed1: set<Key>, auth2: set<Key>, closed2: set<Key>)
    requires Keeps(a, b, auth1, closed1) && Keeps(b, c, auth2, closed2)
    ensures Keeps(a, c, auth1 + auth2, closed1 + closed2)
  {
  }

  /** A transfer debits only an account of its authority. */
  lemma TransferKeeps(accts: Accounts, authority: Key, from: Key, to: Key, amount: u64)
    requires Transfer(accts, authority, from, to, amount).Ok?
    ensures Keeps(accts, Transfer(accts, authority, from, to, amount).value, {authority}, {})
  {
  }

  lemma CloseKeeps(accts: Accounts, account: Key, authority: Key)
    requires Close(accts, account, authority).Ok?
    ensures Keeps(accts, Close(accts, account, authority).value, {}, {account})
  {
  }

  /** The deposit debits only accounts of the two signing parties. */
  lemma DepositKeeps(w: World, signers: set<nat>, player: Key, beneficiary: Key, mint: Key, amount: u64)
    requires Deposit(w, signers, player, beneficiary, mint, amount).Ok?
    ensures Keeps(w.accounts, Deposit(w, signers, player, beneficiary, mint, amount).value.accounts, {player, beneficiary}, {})
  {
    var vault := EscrowAccountAddress(player, beneficiary, mint);
    var playerAta, beneficiaryAta := AssociatedTokenAddress(player, mint), AssociatedTokenAddress(beneficiary, mint);
    var afterPlayer := Transfer(w.accounts, player, playerAta, vault, amount).value;
    TransferKeeps(w.accounts, player, playerAta, vault, amount);
    TransferKeeps(afterPlayer, beneficiary, beneficiaryAta, vault, amount);
    KeepsChain(w.accounts, afterPlayer, Transfer(afterPlayer, beneficiary, beneficiaryAta, vault, amount).value,
               {player}, {}, {beneficiary}, {});
  }

  /** The payout debits only accounts of the escrow record and closes only its vault. */
  lemma TransferToWinnerKeeps(w: World, player: Key, beneficiary: Key, mint: Key, winner: Key, winnerAccount: Key)
    requires PayoutFits(w, player, beneficiary, mint)
    requires TransferToWinner(w, player, beneficiary, mint, winner, winnerAccount).Ok?
    ensures var st, vault := TransactionStateAddress(player, beneficiary, mint), EscrowAccountAddress(player, beneficiary, mint);
      Keeps(w.accounts, TransferToWinner(w, player, beneficiary, mint, winner, winnerAccount).value.accounts, {st}, {vault})
  {
    var st, vault := TransactionStateAddress(player, beneficiary, mint), EscrowAccountAddress(player, beneficiary, mint);
    var payout := 2 * w.escrows[st].amountOfTokens;
    var paid := Transfer(w.accounts, st, vault, winnerAccount, payout).value;
    TransferKeeps(w.accounts, st, vault, winnerAccount, payout);
    CloseKeeps(paid, vault, st);
    KeepsChain(w.accounts, paid, Close(paid, vault, st).value, {st}, {}, {}, {vault});
  }

  /** The refund debits only accounts of the escrow record and closes only its vault. */
  lemma PullBackKeeps(w: World, player: Key, beneficiary: Key, mint: Key)
    requires PayoutFits(w, player, beneficiary, mint)
    requires PullBack(w, player, beneficiary, mint).Ok?
    ensures var st, vault := TransactionStateAddress(player, beneficiary, mint), EscrowAccountAddress(player, beneficiary, mint);
      Keeps(w.accounts, PullBack(w, player, beneficiary, mint).value.accounts, {st}, {vault})
  {
    var st, vault := TransactionStateAddress(player, beneficiary, mint), EscrowAccountAddress(player, beneficiary, mint);
    var playerAta, beneficiaryAta := AssociatedTokenAddress(player, mint), AssociatedTokenAddress(beneficiary, mint);
    var amount := w.escrows[st].amountOfTokens;
    var toPlayer := Transfer(w.accounts, st, vault, playerAta, amount).value;
    var toBoth := Transfer(toPlayer, st, vault, beneficiaryAta, amount).value;
    TransferKeeps(w.accounts, st, vault, playerAta, amount);
    TransferKeeps(toPlayer, st, vault, beneficiaryAta, amount);
    CloseKeeps(toBoth, vault, st);
    KeepsChain(w.accounts, toPlayer, toBoth, {st}, {}, {st}, {});
    KeepsChain(w.accounts, toBoth, Close(toBoth, vault, st).value, {st}, {}, {}, {vault});
  }

  /** Adding liquidity debits only accounts of the signing beneficiary. */
  lemma AddLiquidityKeeps(w: World, signers: set<nat>, beneficiary: Key, tokenAccount: Key, solAccount: Key, tokenAmount: u64, solAmount: u64)
    requires AddLiquidity(w, signers, beneficiary, tokenAccount, solAccount, tokenAmount, solAmount).Ok?
    ensures Signed(signers, beneficiary)
    ensures Keeps(w.accounts, AddLiquidity(w, signers, beneficiary, tokenAccount, solAccount, tokenAmount, solAmount).value.accounts, {beneficiary}, {})
  {
    var market := MarketStateAddress(beneficiary);
    var tokenVault, solVault := TokenVaultAddress(market, beneficiary), SolVaultAddress(market, beneficiary);
    var deposit := LiquidityDeposit(tokenAmount, solAmount, w.accounts[tokenVault].amount, w.accounts[solVault].amount).value;
    var tokensIn := Transfer(w.accounts, beneficiary, tokenAccount, tokenVault, tokenAmount).value;
    TransferKeeps(w.accounts, beneficiary, tokenAccount, tokenVault, tokenAmount);
    TransferKeeps(tokensIn, beneficiary, solAccount, solVault, deposit);
    KeepsChain(w.accounts, tokensIn, Transfer(tokensIn, beneficiary, solAccount, solVault, deposit).value,
               {beneficiary}, {}, {beneficiary}, {});
  }

  /** A swap debits only accounts of the signing player and of the market record. */
  lemma SwapKeeps(w: World, signers: set<nat>, player: Key, beneficiary: Key, playerTokenAccount: Key, playerSolAccount: Key,
                  amountIn: u64, solToToken: bool)
    requires Swap(w, signers, player, beneficiary, playerTokenAccount, playerSolAccount, amountIn, solToToken).Ok?
    ensures Signed(signers, player)
    ensures Keeps(w.accounts, Swap(w, signers, player, beneficiary, playerTokenAccount, playerSolAccount, amountIn, solToToken).value.accounts,
                  {player, MarketStateAddress(beneficiary)}, {})
  {
    var market := MarketStateAddress(beneficiary);
    var tokenVault, solVault := TokenVaultAddress(market, beneficiary), SolVaultAddress(market, beneficiary);
    var route := Direction(solToToken, playerTokenAccount, playerSolAccount, tokenVault, solVault);
    var fees := w.markets[market];
    var amountOut := SwapOut(amountIn, fees.feeNumerator, fees.feeDenominator,
                             w.accounts[route.inVault].amount, w.accounts[route.outVault].amount).value;
    var paid := Transfer(w.accounts, player, route.source, route.inVault, amountIn).value;
    TransferKeeps(w.accounts, player, route.source, route.inVault, amountIn);
    TransferKeeps(paid, market, route.outVault, route.destination, amountOut);
    KeepsChain(w.accounts, paid, Transfer(paid, market, route.outVault, route.destination, amountOut).value,
               {player}, {}, {market}, {});
  }

  // ----- well-formed records -----

  /**
   * A live escrow record sits at the address of its own triple, names the
   * vault of that triple, and the vault exists with the record as authority
   * and the record's mint. The stage byte is `Initialized` (nothing
   * recorded yet) or `FundsDeposited` (the vault holds at least both
   * deposits); a completed record is closed in the same instruction.
   */
  predicate EscrowValid(w: World, st: Key)
    requires st in w.escrows
  {
    var record := w.escrows[st];
    var vault := EscrowAccountAddress(record.player, record.beneficiary, record.mintOfToken);
    && st == TransactionStateAddress(record.player, record.beneficiary, record.mintOfToken)
    && record.escrowAccount == vault
    && vault in w.accounts
    && w.accounts[vault].owner == st && w.accounts[vault].mint == record.mintOfToken
    && (record.stage == ToCode(Initialized) || record.stage == ToCode(FundsDeposited))
    && (record.stage == ToCode(Initialized) ==> record.amountOfTokens == 0)
    && (record.stage == ToCode(FundsDeposited) ==> 2 * record.amountOfTokens <= w.accounts[vault].amount)
  }

  /** A live market record has both its vaults, with the record as authority. */
  predicate MarketValid(w: World, beneficiary: Key)
  {
    var market := MarketStateAddress(beneficiary);
    var tokenVault, solVault := TokenVaultAddress(market, beneficiary), SolVaultAddress(market, beneficiary);
    market in w.markets ==>
      && tokenVault in w.accounts && w.accounts[tokenVault].owner == market
      && solVault in w.accounts && w.accounts[solVault].owner == market
  }

  ghost predicate Valid(w: World)
  {
    && (forall st :: st in w.escrows ==> EscrowValid(w, st))
    && (forall b :: MarketValid(w, b))
  }

  /** The empty ledger is well formed. */
  lemma EmptyValid(accounts: Accounts)
    ensures Valid(World(accounts, map[], map[]))
  {
  }

  /** On a well-formed ledger the payout of any escrow fits in a `u64`. */
  lemma ValidPayoutFits(w: World, player: Key, beneficiary: Key, mint: Key)
    requires Valid(w)
    ensures PayoutFits(w, player, beneficiary, mint)
  {
    var st := TransactionStateAddress(player, beneficiary, mint);
    if st in w.escrows {
      assert EscrowValid(w, st);
    }
  }

  /** An escrow record the instruction did not touch stays well formed. */
  lemma EscrowKept(w: World, next: World, st: Key, authorities: set<Key>, closed: set<Key>)
    requires st in w.escrows && EscrowValid(w, st)
    requires st in next.escrows && next.escrows[st] == w.escrows[st]
    requires Keeps(w.accounts, next.accounts, authorities, closed)
    requires st !in authorities && w.escrows[st].escrowAccount !in closed
    ensures EscrowValid(next, st)
  {
  }

  /** A market record the instruction did not remove stays well formed. */
  lemma MarketKept(w: World, next: World, b: Key, authorities: set<Key>, closed: set<Key>)
    requires MarketValid(w, b)
    requires MarketStateAddress(b) in next.markets ==> MarketStateAddress(b) in w.markets
    requires Keeps(w.accounts, next.accounts, authorities, closed)
    requires TokenVaultAddress(MarketStateAddress(b), b) !in closed && SolVaultAddress(MarketStateAddress(b), b) !in closed
    ensures MarketValid(next, b)
  {
  }

  /** Authorities that no escrow vault answers to: wallets and market records. */
  predicate NotEscrowRecords(authorities: set<Key>)
  {
    forall a :: a in authorities ==> a.Wallet? || a.tag != TransactionStateSeed
  }

  /** An instruction that touches no escrow record keeps every one well formed. */
  lemma EscrowsKept(w: World, next: World, authorities: set<Key>)
    requires Valid(w)
    requires next.escrows == w.escrows
    requires Keeps(w.accounts, next.accounts, authorities, {})
    requires NotEscrowRecords(authorities)
    ensures forall st :: st in next.escrows ==> EscrowValid(next, st)
  {
    forall st | st in next.escrows
      ensures EscrowValid(next, st)
    {
      EscrowKept(w, next, st, authorities, {});
    }
  }

  /** An instruction that closes no market vault keeps every market record well formed. */
  lemma MarketsKept(w: World, next: World, authorities: set<Key>, closed: set<Key>)
    requires Valid(w)
    requires next.markets == w.markets
    requires Keeps(w.accounts, next.accounts, authorities, closed)
    requires forall k :: k in closed ==> k.Pda? && k.tag == EscrowAccountSeed
    ensures forall b :: MarketValid(next, b)
  {
    forall b
      ensures MarketValid(next, b)
    {
      MarketKept(w, next, b, authorities, closed);
    }
  }

  // ----- each instruction keeps the ledger well formed -----

  lemma {:induction false} SetupPreservesValid(w: World, signers: set<nat>, player: Key, beneficiary: Key, mint: Key, stateBump: u8, escrowBump: u8)
    requires Valid(w)
    requires Setup(w, signers, player, beneficiary, mint, stateBump, escrowBump).Ok?
    ensures Valid(Setup(w, signers, player, beneficiary, mint, stateBump, escrowBump).value)
  {
    var next := Setup(w, signers, player, beneficiary, mint, stateBump, escrowBump).value;
    var st := TransactionStateAddress(player, beneficiary, mint);
    assert Keeps(w.accounts, next.accounts, {}, {});
    forall k | k in next.escrows
      ensures EscrowValid(next, k)
    {
      if k != st {
        EscrowKept(w, next, k, {}, {});
      } else {
        FromToCode(Initialized);
      }
    }
    MarketsKept(w, next, {}, {});
  }

  lemma {:induction false} DepositPreservesValid(w: World, signers: set<nat>, player: Key, beneficiary: Key, mint: Key, amount: u64)
    requires Valid(w)
    requires Deposit(w, signers, player, beneficiary, mint, amount).Ok?
    ensures Valid(Deposit(w, signers, player, beneficiary, mint, amount).value)
  {
    var next := Deposit(w, signers, player, beneficiary, mint, amount).value;
    var st := TransactionStateAddress(player, beneficiary, mint);
    DepositKeeps(w, signers, player, beneficiary, mint, amount);
    forall k | k in next.escrows
      ensures EscrowValid(next, k)
    {
      if k != st {
        EscrowKept(w, next, k, {player, beneficiary}, {});
      } else {
        var vault := EscrowAccountAddress(player, beneficiary, mint);
        assert EscrowValid(w, st);
        assert Deposited(w.accounts, next.accounts, player, beneficiary, mint, amount);
        assert next.accounts[vault].amount == w.accounts[vault].amount + 2 * amount;
        assert next.accounts[vault].owner == w.accounts[vault].owner && next.accounts[vault].mint == w.accounts[vault].mint;
        FromToCode(FundsDeposited);
      }
    }
    MarketsKept(w, next, {player, beneficiary}, {});
  }

  /**
   * Closing the record and vault of one escrow keeps every other escrow
   * and every market well formed.
   */
  lemma ResolutionKeeps(w: World, next: World, st: Key, vault: Key, player: Key, beneficiary: Key, mint: Key)
    requires Valid(w)
    requires st == TransactionStateAddress(player, beneficiary, mint) && vault == EscrowAccountAddress(player, beneficiary, mint)
    requires next.escrows.Keys == w.escrows.Keys - {st}
    requires forall k :: k in next.escrows ==> next.escrows[k] == w.escrows[k]
    requires next.markets == w.markets
    requires Keeps(w.accounts, next.accounts, {st}, {vault})
    ensures Valid(next)
  {
    forall k | k in next.escrows
      ensures EscrowValid(next, k)
    {
      var record := w.escrows[k];
      assert EscrowValid(w, k);
      EscrowAddressesDistinct(record.player, record.beneficiary, record.mintOfToken, player, beneficiary, mint);
      EscrowKept(w, next, k, {st}, {vault});
    }
    MarketsKept(w, next, {st}, {vault});
  }

  lemma TransferToWinnerPreservesValid(w: World, player: Key, beneficiary: Key, mint: Key, winner: Key, winnerAccount: Key)
    requires Valid(w)
    requires PayoutFits(w, player, beneficiary, mint)
    requires TransferToWinner(w, player, beneficiary, mint, winner, winnerAccount).Ok?
    ensures Valid(TransferToWinner(w, player, beneficiary, mint, winner, winnerAccount).value)
  {
    var st, vault := TransactionStateAddress(player, beneficiary, mint), EscrowAccountAddress(player, beneficiary, mint);
    TransferToWinnerKeeps(w, player, beneficiary, mint, winner, winnerAccount);
    ResolutionKeeps(w, TransferToWinner(w, player, beneficiary, mint, winner, winnerAccount).value, st, vault, player, beneficiary, mint);
  }

  lemma PullBackPreservesValid(w: World, player: Key, beneficiary: Key, mint: Key)
    requires Valid(w)
    requires PayoutFits(w, player, beneficiary, mint)
    requires PullBack(w, player, beneficiary, mint).Ok?
    ensures Valid(PullBack(w, player, beneficiary, mint).value)
  {
    var st, vault := TransactionStateAddress(player, beneficiary, mint), EscrowAccountAddress(player, beneficiary, mint);
    PullBackKeeps(w, player, beneficiary, mint);
    ResolutionKeeps(w, PullBack(w, player, beneficiary, mint).value, st, vault, player, beneficiary, mint);
  }

  lemma {:induction false} AmmSetupPreservesValid(w: World, signers: set<nat>, beneficiary: Key, tokenMint: Key, solMint: Key,
                                 feeNumerator: u64, feeDenominator: u64, stateBump: u8, tokenVaultBump: u8, solVaultBump: u8)
    requires Valid(w)
    requires AmmSetup(w, signers, beneficiary, tokenMint, solMint, feeNumerator, feeDenominator, stateBump, tokenVaultBump, solVaultBump).Ok?
    ensures Valid(AmmSetup(w, signers, beneficiary, tokenMint, solMint, feeNumerator, feeDenominator, stateBump, tokenVaultBump, solVaultBump).value)
  {
    var next := AmmSetup(w, signers, beneficiary, tokenMint, solMint, feeNumerator, feeDenominator, stateBump, tokenVaultBump, solVaultBump).value;
    assert Keeps(w.accounts, next.accounts, {}, {});
    EscrowsKept(w, next, {});
    forall b
      ensures MarketValid(next, b)
    {
      if b != beneficiary {
        MarketKept(w, next, b, {}, {});
      }
    }
  }

  lemma AddLiquidityPreservesValid(w: World, signers: set<nat>, beneficiary: Key, tokenAccount: Key, solAccount: Key, tokenAmount: u64, solAmount: u64)
    requires Valid(w)
    requires AddLiquidity(w, signers, beneficiary, tokenAccount, solAccount, tokenAmount, solAmount).Ok?
    ensures Valid(AddLiquidity(w, signers, beneficiary, tokenAccount, solAccount, tokenAmount, solAmount).value)
  {
    var next := AddLiquidity(w, signers, beneficiary, tokenAccount, solAccount, tokenAmount, solAmount).value;
    AddLiquidityKeeps(w, signers, beneficiary, tokenAccount, solAccount, tokenAmount, solAmount);
    EscrowsKept(w, next, {beneficiary});
    MarketsKept(w, next, {beneficiary}, {});
  }

  lemma SwapPreservesValid(w: World, signers: set<nat>, player: Key, beneficiary: Key, playerTokenAccount: Key, playerSolAccount: Key,
                           amountIn: u64, solToToken: bool)
    requires Valid(w)
    requires Swap(w, signers, player, beneficiary, playerTokenAccount, playerSolAccount, amountIn, solToToken).Ok?
    ensures Valid(Swap(w, signers, player, beneficiary, playerTokenAccount, playerSolAccount, amountIn, solToToken).value)
  {
    var next := Swap(w, signers, player, beneficiary, playerTokenAccount, playerSolAccount, amountIn, solToToken).value;
    SwapKeeps(w, signers, player, beneficiary, playerTokenAccount, playerSolAccount, amountIn, solToToken);
    EscrowsKept(w, next, {player, MarketStateAddress(beneficiary)});
    MarketsKept(w, next, {player, MarketStateAddress(beneficiary)}, {});
  }

  // ----- no instruction creates or destroys tokens -----

  lemma SetupConservesSupply(w: World, signers: set<nat>, player: Key, beneficiary: Key, mint: Key, stateBump: u8, escrowBump: u8, m: Key)
    requires Setup(w, signers, player, beneficiary, mint, stateBump, escrowBump).Ok?
    ensures Supply(Setup(w, signers, player, beneficiary, mint, stateBump, escrowBump).value.accounts, m) == Supply(w.accounts, m)
  {
    var st, vault := TransactionStateAddress(player, beneficiary, mint), EscrowAccountAddress(player, beneficiary, mint);
    OpenConservesSupply(w.accounts, vault, mint, st, m);
  }

  lemma DepositConservesSupply(w: World, signers: set<nat>, player: Key, beneficiary: Key, mint: Key, amount: u64, m: Key)
    requires Deposit(w, signers, player, beneficiary, mint, amount).Ok?
    ensures Supply(Deposit(w, signers, player, beneficiary, mint, amount).value.accounts, m) == Supply(w.accounts, m)
  {
    var vault := EscrowAccountAddress(player, beneficiary, mint);
    var playerAta, beneficiaryAta := AssociatedTokenAddress(player, mint), AssociatedTokenAddress(beneficiary, mint);
    var afterPlayer := Transfer(w.accounts, player, playerAta, vault, amount).value;
    TransferConservesSupply(w.accounts, player, playerAta, vault, amount, m);
    TransferConservesSupply(afterPlayer, beneficiary, beneficiaryAta, vault, amount, m);
  }

  /**
   * The deposit moves tokens only among the two parties' accounts and the
   * vault: what the three hold together is unchanged.
   */
  lemma DepositConservesHoldings(w: World, signers: set<nat>, player: Key, beneficiary: Key, mint: Key, amount: u64, m: Key)
    requires Deposit(w, signers, player, beneficiary, mint, amount).Ok?
    ensures var keys := {EscrowAccountAddress(player, beneficiary, mint), AssociatedTokenAddress(player, mint), AssociatedTokenAddress(beneficiary, mint)};
      Supply(Restrict(Deposit(w, signers, player, beneficiary, mint, amount).value.accounts, keys), m) == Supply(Restrict(w.accounts, keys), m)
  {
    var vault := EscrowAccountAddress(player, beneficiary, mint);
    var playerAta, beneficiaryAta := AssociatedTokenAddress(player, mint), AssociatedTokenAddress(beneficiary, mint);
    var keys := {vault, playerAta, beneficiaryAta};
    var afterPlayer := Transfer(w.accounts, player, playerAta, vault, amount).value;
    TransferConservesHoldings(w.accounts, player, playerAta, vault, amount, keys, m);
    TransferConservesHoldings(afterPlayer, beneficiary, beneficiaryAta, vault, amount, keys, m);
  }

  lemma TransferToWinnerConservesSupply(w: World, player: Key, beneficiary: Key, mint: Key, winner: Key, winnerAccount: Key, m: Key)
    requires PayoutFits(w, player, beneficiary, mint)
    requires TransferToWinner(w, player, beneficiary, mint, winner, winnerAccount).Ok?
    ensures Supply(TransferToWinner(w, player, beneficiary, mint, winner, winnerAccount).value.accounts, m) == Supply(w.accounts, m)
  {
    var st, vault := TransactionStateAddress(player, beneficiary, mint), EscrowAccountAddress(player, beneficiary, mint);
    var payout := 2 * w.escrows[st].amountOfTokens;
    var paid := Transfer(w.accounts, st, vault, winnerAccount, payout).value;
    TransferConservesSupply(w.accounts, st, vault, winnerAccount, payout, m);
    CloseConservesSupply(paid, vault, st, m);
  }

  lemma PullBackConservesSupply(w: World, player: Key, beneficiary: Key, mint: Key, m: Key)
    requires PayoutFits(w, player, beneficiary, mint)
    requires PullBack(w, player, beneficiary, mint).Ok?
    ensures Supply(PullBack(w, player, beneficiary, mint).value.accounts, m) == Supply(w.accounts, m)
  {
    var st, vault := TransactionStateAddress(player, beneficiary, mint), EscrowAccountAddress(player, beneficiary, mint);
    var playerAta, beneficiaryAta := AssociatedTokenAddress(player, mint), AssociatedTokenAddress(beneficiary, mint);
    var amount := w.escrows[st].amountOfTokens;
    var toPlayer := Transfer(w.accounts, st, vault, playerAta, amount).value;
    var toBoth := Transfer(toPlayer, st, vault, beneficiaryAta, amount).value;
    TransferConservesSupply(w.accounts, st, vault, playerAta, amount, m);
    TransferConservesSupply(toPlayer, st, vault, beneficiaryAta, amount, m);
    CloseConservesSupply(toBoth, vault, st, m);
  }

  lemma AmmSetupConservesSupply(w: World, signers: set<nat>, beneficiary: Key, tokenMint: Key, solMint: Key,
                                feeNumerator: u64, feeDenominator: u64, stateBump: u8, tokenVaultBump: u8, solVaultBump: u8, m: Key)
    requires AmmSetup(w, signers, beneficiary, tokenMint, solMint, feeNumerator, feeDenominator, stateBump, tokenVaultBump, solVaultBump).Ok?
    ensures Supply(AmmSetup(w, signers, beneficiary, tokenMint, solMint, feeNumerator, feeDenominator, stateBump, tokenVaultBump, solVaultBump).value.accounts, m)
            == Supply(w.accounts, m)
  {
    var market := MarketStateAddress(beneficiary);
    var tokenVault, solVault := TokenVaultAddress(market, beneficiary), SolVaultAddress(market, beneficiary);
    OpenConservesSupply(w.accounts, tokenVault, tokenMint, market, m);
    OpenConservesSupply(Open(w.accounts, tokenVault, tokenMint, market), solVault, solMint, market, m);
  }

  lemma AddLiquidityConservesSupply(w: World, signers: set<nat>, beneficiary: Key, tokenAccount: Key, solAccount: Key,
                                    tokenAmount: u64, solAmount: u64, m: Key)
    requires AddLiquidity(w, signers, beneficiary, tokenAccount, solAccount, tokenAmount, solAmount).Ok?
    ensures Supply(AddLiquidity(w, signers, beneficiary, tokenAccount, solAccount, tokenAmount, solAmount).value.accounts, m) == Supply(w.accounts, m)
  {
    var market := MarketStateAddress(beneficiary);
    var tokenVault, solVault := TokenVaultAddress(market, beneficiary), SolVaultAddress(market, beneficiary);
    var deposit := LiquidityDeposit(tokenAmount, solAmount, w.accounts[tokenVault].amount, w.accounts[solVault].amount).value;
    var tokensIn := Transfer(w.accounts, beneficiary, tokenAccount, tokenVault, tokenAmount).value;
    TransferConservesSupply(w.accounts, beneficiary, tokenAccount, tokenVault, tokenAmount, m);
    TransferConservesSupply(tokensIn, beneficiary, solAccount, solVault, deposit, m);
  }

  lemma SwapConservesSupply(w: World, signers: set<nat>, player: Key, beneficiary: Key, playerTokenAccount: Key, playerSolAccount: Key,
                            amountIn: u64, solToToken: bool, m: Key)
    requires Swap(w, signers, player, beneficiary, playerTokenAccount, playerSolAccount, amountIn, solToToken).Ok?
    ensures Supply(Swap(w, signers, player, beneficiary, playerTokenAccount, playerSolAccount, amountIn, solToToken).value.accounts, m)
            == Supply(w.accounts, m)
  {
    var market := MarketStateAddress(beneficiary);
    var tokenVault, solVault := TokenVaultAddress(market, beneficiary), SolVaultAddress(market, beneficiary);
    var route := Direction(solToToken, playerTokenAccount, playerSolAccount, tokenVault, solVault);
    var fees := w.markets[market];
    var amountOut := SwapOut(amountIn, fees.feeNumerator, fees.feeDenominator,
                             w.accounts[route.inVault].amount, w.accounts[route.outVault].amount).value;
    var paid := Transfer(w.accounts, player, route.source, route.inVault, amountIn).value;
    TransferConservesSupply(w.accounts, player, route.source, route.inVault, amountIn, m);
    TransferConservesSupply(paid, market, route.outVault, route.destination, amountOut, m);
  }
}
