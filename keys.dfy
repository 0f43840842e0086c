/** Integer widths, account keys and program-derived addresses. */
module Keys {

  const MAX_U8: int := 0xFF
  const MAX_U64: int := 0xFFFF_FFFF_FFFF_FFFF
  const MAX_U128: int := 0xFFFF_FFFF_FFFF_FFFF_FFFF_FFFF_FFFF_FFFF

  /** Rust's `u8` and `u64`. */
  type u8 = x: int | 0 <= x <= MAX_U8
  type u64 = x: int | 0 <= x <= MAX_U64

  /** The fixed first seed of each kind of derived address the program uses. */
  datatype Tag =
    | TransactionStateSeed   // b"transaction-state"
    | EscrowAccountSeed      // b"escrow-account"
    | MarketStateSeed        // b"market-state"
    | TokenVaultSeed         // b"token-vault"
    | SolVaultSeed           // b"sol-vault"
    | AssociatedTokenSeed    // the associated-token-account program's derivation

  /**
   * A public key. A `Wallet` key has a private key and can sign a transaction;
   * a `Pda` key is derived from seeds, lies off the curve and never signs.
   * The constructor `Pda` stands for the derivation: it is injective in its
   * seeds and never yields a wallet key.
   */
  datatype Key = Wallet(id: nat) | Pda(tag: Tag, seeds: seq<Key>)

  function Derive(tag: Tag, seeds: seq<Key>): Key
  {
    Pda(tag, seeds)
  }

  /** Seeds of `transaction_state` in `TransactionSetup`. */
  function TransactionStateAddress(player: Key, beneficiary: Key, mint: Key): Key
  {
    Derive(TransactionStateSeed, [player, beneficiary, mint])
  }

  /** Seeds of `escrow_account` in `TransactionSetup`. */
  function EscrowAccountAddress(player: Key, beneficiary: Key, mint: Key): Key
  {
    Derive(EscrowAccountSeed, [player, beneficiary, mint])
  }

  /** Seeds of `market_state` in `AMMSetup`: the beneficiary only. */
  function MarketStateAddress(beneficiary: Key): Key
  {
    Derive(MarketStateSeed, [beneficiary])
  }

  function TokenVaultAddress(market: Key, beneficiary: Key): Key
  {
    Derive(TokenVaultSeed, [market, beneficiary])
  }

  function SolVaultAddress(market: Key, beneficiary: Key): Key
  {
    Derive(SolVaultSeed, [market, beneficiary])
  }

  /** The token vault and the sol vault of the market of `beneficiary`. */
  function MarketTokenVault(beneficiary: Key): Key
  {
    TokenVaultAddress(MarketStateAddress(beneficiary), beneficiary)
  }

  function MarketSolVault(beneficiary: Key): Key
  {
    SolVaultAddress(MarketStateAddress(beneficiary), beneficiary)
  }

  /** The associated token account of `owner` for `mint`. */
  function AssociatedTokenAddress(owner: Key, mint: Key): Key
  {
    Derive(AssociatedTokenSeed, [owner, mint])
  }

  /** `k` signed the transaction: only wallet keys can. */
  predicate Signed(signers: set<nat>, k: Key)
  {
    k.Wallet? && k.id in signers
  }

  /** Equal derived addresses come from equal tags and seed lists. */
  lemma DeriveInjective(t1: Tag, s1: seq<Key>, t2: Tag, s2: seq<Key>)
    ensures Derive(t1, s1) == Derive(t2, s2) <==> t1 == t2 && s1 == s2
  {
  }

  /** A derived address never signs. */
  lemma DerivedNeverSigns(signers: set<nat>, tag: Tag, seeds: seq<Key>)
    ensures !Signed(signers, Derive(tag, seeds))
  {
  }

  /**
   * The escrow's state and vault addresses are distinct, and each determines
   * the (player, beneficiary, mint) triple: at most one escrow per triple.
   */
  lemma EscrowAddressesDistinct(p: Key, b: Key, m: Key, p': Key, b': Key, m': Key)
    ensures TransactionStateAddress(p, b, m) != EscrowAccountAddress(p', b', m')
    ensures TransactionStateAddress(p, b, m) == TransactionStateAddress(p', b', m') <==> p == p' && b == b' && m == m'
    ensures EscrowAccountAddress(p, b, m) == EscrowAccountAddress(p', b', m') <==> p == p' && b == b' && m == m'
  {
  }

  /** The market's state and its two vaults are three distinct addresses. */
  lemma MarketAddressesDistinct(b: Key)
    ensures MarketStateAddress(b) != TokenVaultAddress(MarketStateAddress(b), b)
    ensures MarketStateAddress(b) != SolVaultAddress(MarketStateAddress(b), b)
    ensures TokenVaultAddress(MarketStateAddress(b), b) != SolVaultAddress(MarketStateAddress(b), b)
  {
  }
}
