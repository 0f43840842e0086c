/**
 * Token accounts and the two token-program calls the program makes:
 * a transfer (`secure_transfer_cpi`) and the closing of an account
 * (`close_account_cpi`).
 */
module Tokens {
  import opened Keys
  import opened Errors

  /** A token account: its mint, its authority (`owner`) and its balance. */
  datatype TokenAccount = TokenAccount(mint: Key, owner: Key, amount: u64)

  type Accounts = map<Key, TokenAccount>

  /**
   * A token transfer of `amount` from `from` to `to`, signed by `authority`,
   * with the token program's checks in its own order. A transfer of an
   * account to itself passes the checks and changes nothing.
   */
  function Transfer(accts: Accounts, authority: Key, from: Key, to: Key, amount: u64): (r: Result<Accounts>)
    ensures r.Ok? <==>
      && from in accts && to in accts
      && amount <= accts[from].amount
      && accts[from].mint == accts[to].mint
      && accts[from].owner == authority
      && (from != to ==> accts[to].amount + amount <= MAX_U64)
    ensures r.Err? && from in accts && to in accts && accts[from].amount < amount ==> r.error == InsufficientFunds
    ensures r.Ok? ==> r.value.Keys == accts.Keys
    ensures r.Ok? ==> forall k :: k in accts ==> r.value[k].mint == accts[k].mint && r.value[k].owner == accts[k].owner
    ensures r.Ok? ==> forall k :: k in accts && k != from && k != to ==> r.value[k] == accts[k]
    ensures r.Ok? && from != to ==> r.value[from].amount == accts[from].amount - amount
    ensures r.Ok? && from != to ==> r.value[to].amount == accts[to].amount + amount
    ensures r.Ok? && from == to ==> r.value == accts
  {
    if from !in accts || to !in accts then Err(AccountNotInitialized)
    else
      var source, destination := accts[from], accts[to];
      if source.amount < amount then Err(InsufficientFunds)
      else if source.mint != destination.mint then Err(MintMismatch)
      else if source.owner != authority then Err(OwnerMismatch)
      else if from == to then Ok(accts)
      else if destination.amount + amount > MAX_U64 then Err(Overflow)
      else
        var debited := accts[from := source.(amount := source.amount - amount)];
        Ok(debited[to := destination.(amount := destination.amount + amount)])
  }

  /**
   * Closing a token account on the authority's signature: only an empty
   * account can be closed, and it disappears from the ledger. Every mint is
   * treated as non-native: the token program would also close a
   * wrapped-SOL account that still holds a balance, unwrapping it.
   */
  function Close(accts: Accounts, account: Key, authority: Key): (r: Result<Accounts>)
    ensures r.Ok? <==> account in accts && accts[account].amount == 0 && accts[account].owner == authority
    ensures r.Err? && account in accts && accts[account].amount != 0 ==> r.error == NonNativeHasBalance
    ensures r.Ok? ==> r.value.Keys == accts.Keys - {account}
    ensures r.Ok? ==> forall k :: k in r.value ==> r.value[k] == accts[k]
  {
    if account !in accts then Err(AccountNotInitialized)
    else if accts[account].amount != 0 then Err(NonNativeHasBalance)
    else if accts[account].owner != authority then Err(OwnerMismatch)
    else Ok(accts - {account})
  }

  /** A new, empty token account at `address` (an `init` with `token::mint` and `token::authority`). */
  function Open(accts: Accounts, address: Key, mint: Key, owner: Key): (r: Accounts)
    ensures r.Keys == accts.Keys + {address}
    ensures r[address].amount == 0 && r[address].mint == mint && r[address].owner == owner
    ensures forall k :: k in accts && k != address ==> r[k] == accts[k]
  {
    accts[address := TokenAccount(mint, owner, 0)]
  }

  /** What `acct` holds of `mint`. */
  function AmountOf(acct: TokenAccount, mint: Key): nat
  {
    if acct.mint == mint then acct.amount else 0
  }

  /** The total of `mint` held by the accounts of `accts`. */
  ghost function Supply(accts: Accounts, mint: Key): nat
    decreases |accts|
  {
    if accts == map[] then 0
    else
      var k :| k in accts;
      assert |accts - {k}| == |accts| - 1 by { assert (accts - {k}).Keys == accts.Keys - {k}; }
      AmountOf(accts[k], mint) + Supply(accts - {k}, mint)
  }

  /** The supply splits off any one account, whichever one `Supply` picked. */
  lemma {:induction false} SupplySplit(accts: Accounts, k: Key, mint: Key)
    requires k in accts
    ensures Supply(accts, mint) == AmountOf(accts[k], mint) + Supply(accts - {k}, mint)
    decreases |accts|
  {
    var j :| j in accts && Supply(accts, mint) == AmountOf(accts[j], mint) + Supply(accts - {j}, mint);
    if j != k {
      var rest := accts - {j} - {k};
      assert (accts - {j}).Keys == accts.Keys - {j};
      assert (accts - {k}).Keys == accts.Keys - {k};
      SupplySplit(accts - {j}, k, mint);
      SupplySplit(accts - {k}, j, mint);
      assert accts - {j} - {k} == accts - {k} - {j};
    }
  }

  /** Replacing one account changes the supply by the difference of the two. */
  lemma SupplyReplace(accts: Accounts, k: Key, v: TokenAccount, mint: Key)
    requires k in accts
    ensures Supply(accts[k := v], mint) + AmountOf(accts[k], mint) == Supply(accts, mint) + AmountOf(v, mint)
  {
    SupplySplit(accts, k, mint);
    SupplySplit(accts[k := v], k, mint);
    assert accts[k := v] - {k} == accts - {k};
  }

  /** A transfer neither creates nor destroys tokens of any mint. */
  lemma TransferConservesSupply(accts: Accounts, authority: Key, from: Key, to: Key, amount: u64, mint: Key)
    requires Transfer(accts, authority, from, to, amount).Ok?
    ensures Supply(Transfer(accts, authority, from, to, amount).value, mint) == Supply(accts, mint)
  {
    if from != to {
      var source, destination := accts[from], accts[to];
      var debited := accts[from := source.(amount := source.amount - amount)];
      SupplyReplace(accts, from, source.(amount := source.amount - amount), mint);
      SupplyReplace(debited, to, destination.(amount := destination.amount + amount), mint);
    }
  }

  /** Closing an (empty) account does not change any supply. */
  lemma CloseConservesSupply(accts: Accounts, account: Key, authority: Key, mint: Key)
    requires Close(accts, account, authority).Ok?
    ensures Supply(Close(accts, account, authority).value, mint) == Supply(accts, mint)
  {
    SupplySplit(accts, account, mint);
  }

  /** Opening an empty account at an unused address does not change any supply. */
  lemma OpenConservesSupply(accts: Accounts, address: Key, mint: Key, owner: Key, m: Key)
    requires address !in accts
    ensures Supply(Open(accts, address, mint, owner), m) == Supply(accts, m)
  {
    var r := Open(accts, address, mint, owner);
    SupplySplit(r, address, m);
    assert r - {address} == accts;
  }

  /** The accounts of `accts` whose addresses are in `keys`. */
  function Restrict(accts: Accounts, keys: set<Key>): (r: Accounts)
    ensures r.Keys == accts.Keys * keys
    ensures forall k :: k in r ==> r[k] == accts[k]
  {
    map k | k in accts && k in keys :: accts[k]
  }

  /**
   * A transfer between two accounts of `keys` leaves the total of `keys`
   * unchanged: the balances of the two parties to a move sum to the same.
   */
  lemma TransferConservesHoldings(accts: Accounts, authority: Key, from: Key, to: Key, amount: u64, keys: set<Key>, mint: Key)
    requires Transfer(accts, authority, from, to, amount).Ok?
    requires from in keys && to in keys
    ensures Supply(Restrict(Transfer(accts, authority, from, to, amount).value, keys), mint) == Supply(Restrict(accts, keys), mint)
  {
    var after := Transfer(accts, authority, from, to, amount).value;
    var local := Restrict(accts, keys);
    assert Transfer(local, authority, from, to, amount).Ok?;
    assert Restrict(after, keys) == Transfer(local, authority, from, to, amount).value;
    TransferConservesSupply(local, authority, from, to, amount, mint);
  }
}
