/** The program's account records and the ledger they live in. */
module State {
  import opened Keys
  import opened Tokens

  const PUBKEY_LEN: int := 32

  /** Serialized size of a `TransactionState` (without the 8-byte discriminator). */
  const TRANSACTION_STATE_LEN: int := 32 + 32 + 32 + 32 + 8 + 1 + 1 + 1

  /**
   * The escrow record. `stage` is the raw byte; instructions decode it with
   * `Stages.FromCode` before acting on it.
   */
  datatype TransactionState = TransactionState(
    player: Key,
    beneficiary: Key,
    mintOfToken: Key,
    escrowAccount: Key,
    amountOfTokens: u64,
    stage: u8,
    stateBump: u8,
    escrowBump: u8)

  /** The market record: the fee ratio and the bumps of its three addresses. */
  datatype MarketState = MarketState(
    feeNumerator: u64,
    feeDenominator: u64,
    stateBump: u8,
    tokenVaultBump: u8,
    solVaultBump: u8)

  /**
   * The ledger: token accounts, escrow records and market records, each map
   * keyed by the account's address.
   */
  datatype World = World(
    accounts: Accounts,
    escrows: map<Key, TransactionState>,
    markets: map<Key, MarketState>)

  /** An account of any kind lives at `k`. */
  predicate InUse(w: World, k: Key)
  {
    k in w.accounts || k in w.escrows || k in w.markets
  }

  /** Four public keys, a `u64` and three bytes. */
  lemma TransactionStateLen()
    ensures TRANSACTION_STATE_LEN == 4 * PUBKEY_LEN + 8 + 3 == 139
  {
  }
}
