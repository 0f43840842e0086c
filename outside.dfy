/**
 * What anybody can do to the token ledger between the program's own
 * transactions, by calling the token program directly: move tokens out of
 * an account they sign for, create a token account, and close an empty
 * account they sign for. None of these can touch an account whose
 * authority is a derived address, because a derived address never signs,
 * so the program's records stay well formed and no supply changes.
 */
module Outside {
  import opened Keys
  import opened Errors
  import opened Tokens
  import opened State
  import opened Invariants

  /** A direct call to the token program, with the wallets that signed it. */
  datatype TokenCall =
    | TransferCall(signers: set<nat>, authority: Key, from: Key, to: Key, amount: u64)
    | OpenCall(signers: set<nat>, address: Key, mint: Key, owner: Key)
    | CloseCall(signers: set<nat>, account: Key, authority: Key)

  /**
   * Where a new token account can be created without this program: at a
   * fresh key whose holder signs, or at the associated token address of
   * its owner and mint, which anyone may create.
   */
  predicate Creatable(signers: set<nat>, address: Key, mint: Key, owner: Key)
  {
    Signed(signers, address) || address == AssociatedTokenAddress(owner, mint)
  }

  /** One direct token-program call; it changes only the token accounts. */
  function Call(w: World, call: TokenCall): (r: Result<World>)
    ensures r.Ok? ==> r.value.escrows == w.escrows && r.value.markets == w.markets
    ensures call.TransferCall? ==>
      (r.Ok? <==> Signed(call.signers, call.authority) && Transfer(w.accounts, call.authority, call.from, call.to, call.amount).Ok?)
    ensures call.OpenCall? ==>
      (r.Ok? <==> Creatable(call.signers, call.address, call.mint, call.owner) && !InUse(w, call.address))
    ensures call.CloseCall? ==>
      (r.Ok? <==> Signed(call.signers, call.authority) && Close(w.accounts, call.account, call.authority).Ok?)
    ensures r.Ok? && call.OpenCall? ==> r.value.accounts == Open(w.accounts, call.address, call.mint, call.owner)
  {
    match call
    case TransferCall(signers, authority, from, to, amount) =>
      :- Need(Signed(signers, authority), MissingSigner);
      var accounts :- Transfer(w.accounts, authority, from, to, amount);
      Ok(w.(accounts := accounts))
    case OpenCall(signers, address, mint, owner) =>
      :- Need(Creatable(signers, address, mint, owner), MissingSigner);
      :- Need(!InUse(w, address), AccountInUse);
      Ok(w.(accounts := Open(w.accounts, address, mint, owner)))
    case CloseCall(signers, account, authority) =>
      :- Need(Signed(signers, authority), MissingSigner);
      var accounts :- Close(w.accounts, account, authority);
      Ok(w.(accounts := accounts))
  }

  /**
   * A direct call debits or closes only accounts of a signing wallet, and
   * every record's vaults answer to a derived address, so every record
   * stays well formed.
   */
  lemma CallPreservesValid(w: World, call: TokenCall)
    requires Valid(w)
    requires Call(w, call).Ok?
    ensures Valid(Call(w, call).value)
  {
    var next := Call(w, call).value;
    var authorities: set<Key>, closed: set<Key> := {}, {};
    match call {
      case TransferCall(_, authority, from, to, amount) =>
        TransferKeeps(w.accounts, authority, from, to, amount);
        authorities := {authority};
      case OpenCall(_, address, mint, owner) =>
      case CloseCall(_, account, authority) =>
        CloseKeeps(w.accounts, account, authority);
        closed := {account};
    }
    assert Keeps(w.accounts, next.accounts, authorities, closed);
    assert forall a :: a in authorities ==> a.Wallet?;
    assert forall k :: k in closed ==> k in w.accounts && w.accounts[k].owner.Wallet?;
    forall st | st in next.escrows
      ensures EscrowValid(next, st)
    {
      assert EscrowValid(w, st);
      EscrowKept(w, next, st, authorities, closed);
    }
    forall b
      ensures MarketValid(next, b)
    {
      if MarketStateAddress(b) in w.markets {
        assert MarketValid(w, b);
        MarketKept(w, next, b, authorities, closed);
      }
    }
  }

  /** A direct call moves, adds empty or removes empty accounts: no supply changes. */
  lemma CallConservesSupply(w: World, call: TokenCall, m: Key)
    requires Call(w, call).Ok?
    ensures Supply(Call(w, call).value.accounts, m) == Supply(w.accounts, m)
  {
    match call
    case TransferCall(_, authority, from, to, amount) =>
      TransferConservesSupply(w.accounts, authority, from, to, amount, m);
    case OpenCall(_, address, mint, owner) =>
      OpenConservesSupply(w.accounts, address, mint, owner, m);
    case CloseCall(_, account, authority) =>
      CloseConservesSupply(w.accounts, account, authority, m);
  }
}
