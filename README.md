# DungeonNFT settlement program in Dafny

This project models the on-chain part of the DungeonNFT game. It is a Solana program written with Anchor, and it has two parts:

- A two-party escrow. A player and a beneficiary each lock the same number of tokens in a vault. The pot is then paid to a winner, or each party is refunded. The stages are `Initialized` (1), `FundsDeposited` (2) and `EscrowComplete` (3).
- A constant-product market between one token and wrapped SOL. A beneficiary sets it up and adds liquidity, and players swap in either direction.

The model is in three layers:

- **Values.** Each instruction is a function from the ledger before it (`State.World`) to the ledger after it, or to the error that rejects it. The ledger holds the token accounts, the escrow records and the market records.
  - The escrow instructions are in `Escrow`, the market instructions in `Market`, and the pure u128 pricing in `Pricing`.
  - The token program's transfer and close are in `Tokens`. The stage byte codec is in `Stages`, and derived addresses are in `Keys`.
  - The Anchor account constraints each handler relies on (`init` on an unused address, signers, seeds, `token::authority`, `associated_token::*`, `constraint = …`) are checked before the handler body, as the runtime does.
- **Imperative.** `Ledgers.Ledger` is a class whose three map fields the handlers update step by step, in the source's order.
  - Each method is proved to commit exactly the state the value-level function computes, or, on any error, to leave the ledger as it was (`Commits`).
  - A later step's failure rolls back the balances an earlier transfer had already moved. This is how the runtime makes an instruction all-or-nothing.
- **Properties.** These are lemmas about the functions. `Invariants` and `Program` prove three facts:
  - No instruction creates or destroys tokens of any mint.
  - Every instruction keeps escrow and market records well formed.
  - On every ledger reachable from one without records, an escrow's payout `2 * amount_of_tokens` fits in a `u64`. Reachable means through any sequence of the program's instructions and of direct token-program calls by anybody (`Outside`): transfers out of accounts they sign for, new token accounts, and closes of empty accounts they sign for.

  `EscrowProperties` covers the escrow's round trips and when each escrow instruction succeeds. `Scenarios` replays the repository's test scripts as exact numeric oracles.

Addresses derived from seeds are the constructor `Key.Pda(tag, seeds)`. It is injective, and a derived address never signs. Only `Key.Wallet` keys sign, and a transaction's signers are the set of wallet ids passed with it. Bumps are arguments.

Where the written design and the code disagree, the model follows the code:

- **Swap rounding.** The swap floors the reserve that remains, so the output is the *ceiling* of the exact constant-product output. The rounding favours the trader (`Pricing.SwapOutRoundsUp`).
- **Reserve product.** The product of the reserves can shrink, by less than the grown input reserve (`Pricing.ProductLossBounded`). The test's own numbers show it (`Pricing.FirstSwapPrice`).
- **Fee ratio.** The fee ratio is stored without validation. A zero denominator, or a fee larger than the input, aborts the swap instead.
- **Zero input.** A swap of 0 is not rejected.
- **Market key.** There is one market per beneficiary, not per (beneficiary, mint).
- **Later liquidity deposits.** A later deposit ignores `sol_amount` and prices the sol side at `token_amount * floor(sol_vault / token_vault)`. That is 0 sol whenever the sol vault holds less than the token vault.
- **Vault balance.** Anyone can pay into an escrow vault, so a funded vault holds *at least* both deposits, not exactly both. For a non-native mint, a surplus blocks both the payout and the refund (`EscrowProperties.SurplusBlocksResolution`). Over wrapped SOL the token program would close the non-empty vault, so only the refund is blocked; the model treats every mint as non-native.
- **Winner.** The winner of `transfer_to_winner` is any key that owns a token account of the escrow's mint. It is not checked against the two parties.
- **Error names.** Errors are the program's own (`StageInvalid`, `NotEnoughBalance`), Anchor's constraint failures, the token program's failures, and `Panic` for a failed `unwrap`/`assert!` or a checked-arithmetic abort.

## Model

| member | source | states |
|---|---|---|
| Stages.ToCode | programs/DungeonNFT/src/utils.rs:13-19 | each stage's code is 1, 2 or 3 |
| Stages.FromCode | programs/DungeonNFT/src/utils.rs:21-31 | decoding succeeds exactly on 1..3 and then re-encodes to the same byte; every other byte is `StageInvalid` |
| Stages.FromToCode | programs/DungeonNFT/src/utils.rs:13-25 | decoding the code of a stage gives the stage back |
| Stages.ToCodeInjective | programs/DungeonNFT/src/utils.rs:13-19 | distinct stages have distinct codes |
| Stages.ZeroIsInvalid | programs/DungeonNFT/src/utils.rs:26-29 | a zeroed record's stage byte 0 is `StageInvalid` |
| Tokens.Transfer | programs/DungeonNFT/src/utils.rs:34-52 | succeeds iff both accounts exist, the sender holds enough, the mints match, the authority owns the sender and the receiver cannot overflow; insufficient funds report `InsufficientFunds`; on success sender −amount, receiver +amount, owners and mints kept, every other account unchanged, a self-transfer changes nothing |
| Tokens.Close | programs/DungeonNFT/src/utils.rs:54-74 | succeeds iff the account exists, is empty and is owned by the authority; a non-empty account reports `NonNativeHasBalance` (every mint treated as non-native); on success exactly that account is gone |
| Tokens.Open | programs/DungeonNFT/src/instructions/transaction_setup.rs:43-55 | an `init` token account: the new address holds 0 of its mint under its authority, every other account unchanged |
| Tokens.TransferConservesSupply | programs/DungeonNFT/src/utils.rs:34-52 | a transfer leaves the total supply of every mint unchanged |
| Tokens.CloseConservesSupply | programs/DungeonNFT/src/utils.rs:54-74 | closing an account leaves every supply unchanged |
| Tokens.OpenConservesSupply | programs/DungeonNFT/src/instructions/transaction_setup.rs:43-55 | creating an empty account at an unused address leaves every supply unchanged |
| Tokens.TransferConservesHoldings | programs/DungeonNFT/src/utils.rs:34-52 | what any set of accounts containing both parties of a transfer holds together is unchanged |
| Tokens.SupplySplit | programs/DungeonNFT/src/utils.rs:34-52 | the supply is any one account's holding plus the supply of the rest |
| State.TransactionStateLen | programs/DungeonNFT/src/state.rs:17 | `LEN` is four 32-byte keys, a `u64` and three bytes: 139 |
| Keys.DeriveInjective | programs/DungeonNFT/src/instructions/transaction_setup.rs:33-51 | equal derived addresses come from equal tags and seeds |
| Keys.DerivedNeverSigns | programs/DungeonNFT/src/instructions/transaction_setup.rs:58-61 | a derived address is never a signer |
| Keys.EscrowAddressesDistinct | programs/DungeonNFT/src/instructions/transaction_setup.rs:29-55 | the record and vault addresses of a triple differ, and each determines the triple |
| Keys.MarketAddressesDistinct | programs/DungeonNFT/src/instructions/amm_setup.rs:26-64 | the market record and its two vaults are three distinct addresses |
| Escrow.Setup | programs/DungeonNFT/src/instructions/transaction_setup.rs:6-69 | succeeds iff the player signed and neither derived address is in use; the record holds the given keys, amount 0 and stage `Initialized`; the vault is new, empty, of the mint, owned by the record; no other account or record changes |
| Escrow.Deposit | programs/DungeonNFT/src/instructions/deposit_by_both_parties.rs:6-110 | success needs both signatures and stage `Initialized`, and any other stage is `StageInvalid`; on success both parties' accounts −amount (−2·amount when they are one party), the vault +2·amount, the record holds `amount` and stage `FundsDeposited`, nothing else changes |
| Escrow.TransferToWinner | programs/DungeonNFT/src/instructions/transfer_to_winner.rs:6-93 | success needs stage `FundsDeposited`, a vault holding exactly both deposits, and a winner account owned by `winner` in the escrow's mint; any other stage is `StageInvalid`; on success the winner account gains 2·amount, the vault and the record are gone, every other account unchanged |
| Escrow.PullBack | programs/DungeonNFT/src/instructions/pullback.rs:6-113 | stage other than `FundsDeposited` is `StageInvalid`; a vault not holding exactly 2·amount aborts; on success each party's account gains `amount`, the vault and the record are gone, nothing else changes |
| EscrowProperties.PullBackUndoesDeposit | programs/DungeonNFT/src/instructions/pullback.rs:30-58 | setup, joint deposit, then pull-back restores the exact ledger before setup |
| EscrowProperties.SetupThenDeposit | programs/DungeonNFT/src/instructions/deposit_by_both_parties.rs:29-59 | after setup and deposit the vault holds 2·amount, each party's account is −amount, and the record is funded |
| EscrowProperties.WinnerGainsLoserLoses | programs/DungeonNFT/src/instructions/transfer_to_winner.rs:26-45 | setup, deposit, payout to either party: the winner ends +amount, the loser −amount, and the vault and record are gone |
| EscrowProperties.PayoutAfterFunding | programs/DungeonNFT/src/instructions/transfer_to_winner.rs:26-45 | from a funded ledger the payout succeeds and leaves winner +amount, loser −amount relative to before the deposit |
| EscrowProperties.AnyOwnerCanBePaid | programs/DungeonNFT/src/instructions/transfer_to_winner.rs:85-90 | the payout succeeds for any `winner` owning an account of the mint, whether or not it is a party |
| EscrowProperties.PullBackSucceeds | programs/DungeonNFT/src/instructions/pullback.rs:15-58 | a funded escrow whose vault holds exactly both deposits can always be pulled back when the refunds fit |
| EscrowProperties.SurplusBlocksResolution | programs/DungeonNFT/src/instructions/pullback.rs:15-17 | for a non-native mint, tokens in the vault beyond both deposits make both the payout and the pull-back fail |
| EscrowProperties.DepositSucceeds | programs/DungeonNFT/src/instructions/deposit_by_both_parties.rs:9-59 | once the account constraints pass, the deposit succeeds iff the stage is `Initialized`, the vault is of the mint, each party's account holds `amount` (one account holds 2·amount when the parties are one), and the vault can take 2·amount more |
| EscrowProperties.OneEscrowPerTriple | programs/DungeonNFT/src/instructions/transaction_setup.rs:29-40 | setup for a triple with a live record fails |
| EscrowProperties.NoSecondDeposit | programs/DungeonNFT/src/instructions/deposit_by_both_parties.rs:9-15 | a second deposit on a funded escrow is `StageInvalid` |
| Pricing.Fee | programs/DungeonNFT/src/instructions/swap_tokens.rs:42-46 | the fee is the floor of `amount_in·num/den` |
| Pricing.SwapOut | programs/DungeonNFT/src/instructions/swap_tokens.rs:38-55 | succeeds iff the denominator is non-zero, the fee is at most the input and the grown input reserve is non-zero, otherwise aborts; the output never exceeds the output reserve |
| Pricing.Remaining | programs/DungeonNFT/src/instructions/swap_tokens.rs:49-54 | the reserve left after the swap is the floor of `out·in/(in+net)` and at most the output reserve |
| Pricing.FeeAtMostInput | programs/DungeonNFT/src/instructions/swap_tokens.rs:42-47 | the u128 subtraction `amount_in − fee` cannot underflow iff `amount_in·num < amount_in·den + den` |
| Pricing.NetIn | programs/DungeonNFT/src/instructions/swap_tokens.rs:47 | the net input is at most the input, and equals it with no fee |
| Pricing.SwapFitsU128 | programs/DungeonNFT/src/instructions/swap_tokens.rs:38-54 | every u128 intermediate of the swap fits in 128 bits |
| Pricing.SwapOutRoundsUp | programs/DungeonNFT/src/instructions/swap_tokens.rs:49-55 | the output is the ceiling of `out·net/(in+net)` |
| Pricing.ZeroFeeProductNeverGrows | programs/DungeonNFT/src/instructions/swap_tokens.rs:49-55 | with no fee the reserve product after the swap is at most the product before |
| Pricing.ProductLossBounded | programs/DungeonNFT/src/instructions/swap_tokens.rs:49-55 | the reserve product falls by less than the grown input reserve |
| Pricing.EmptyInputReserveDrains | programs/DungeonNFT/src/instructions/swap_tokens.rs:49-55 | an empty input reserve sells the whole output reserve |
| Pricing.ZeroFeeMonotone | programs/DungeonNFT/src/instructions/swap_tokens.rs:42-55 | with no fee a larger input never buys less |
| Pricing.FirstSwapPrice | tests/DungeonNFTAMM.ts:200-223 | 1e9 sol against reserves 2e9/50e9 buys 16,666,666,667 tokens, and the product shrinks |
| Pricing.SecondSwapPrice | tests/DungeonNFTAMM.ts:225-259 | 50e9 tokens against reserves 33,333,333,333/3e9 buys 1,800,000,001 sol |
| Pricing.LiquidityDeposit | programs/DungeonNFT/src/instructions/liquidity.rs:11-27 | succeeds iff both vaults are empty or the token vault is non-empty and the ratio-derived amount fits a `u64`; an empty pair takes `sol_amount` as given |
| Pricing.LaterDepositIgnoresSolAmount | programs/DungeonNFT/src/instructions/liquidity.rs:25-26 | once a vault is non-empty, `sol_amount` has no effect |
| Pricing.LaterDepositAtMostPrice | programs/DungeonNFT/src/instructions/liquidity.rs:25-26 | a later deposit pays at most the vault price, short by exactly `token_amount·(sol mod token)` |
| Pricing.LaterDepositExactOnWholeRate | programs/DungeonNFT/src/instructions/liquidity.rs:25-26 | when the vault ratio is whole, the deposit is exactly at the vault price |
| Pricing.LaterDepositFreeWhenSolScarce | programs/DungeonNFT/src/instructions/liquidity.rs:25-26 | when the sol vault holds less than the token vault, a later deposit puts in 0 sol |
| Market.AmmSetup | programs/DungeonNFT/src/instructions/amm_setup.rs:6-72 | succeeds iff the beneficiary signed and none of the three addresses is in use; the record holds the fee ratio and bumps as given; both vaults are new, empty, of their mints, owned by the record; nothing else changes |
| Market.AddLiquidity | programs/DungeonNFT/src/instructions/liquidity.rs:6-107 | after the constraints pass: a failing deposit computation aborts, a short sol or token balance is `NotEnoughBalance`; on success the records are unchanged and (on distinct accounts) the tokens and the computed sol move into the vaults and nothing else changes |
| Market.Swap | programs/DungeonNFT/src/instructions/swap_tokens.rs:7-116 | after the constraints pass, an input above the player's balance is `NotEnoughBalance`; on success, per direction and on distinct accounts, the full input enters the input vault and `SwapOut` of the pre-swap reserves leaves the output vault for the player, nothing else changes |
| Market.AddLiquiditySucceeds | programs/DungeonNFT/src/instructions/liquidity.rs:11-62 | once the constraints pass, on four distinct accounts adding liquidity succeeds iff the sol side is defined, both balances cover their side, each account is of its vault's mint and both vaults have room |
| Market.SwapPricePanics | programs/DungeonNFT/src/instructions/swap_tokens.rs:38-55 | once the constraints pass and the player holds the input, a price `SwapOut` cannot compute makes the swap `Panic` |
| Market.SwapSucceeds | programs/DungeonNFT/src/instructions/swap_tokens.rs:31-69 | once the constraints pass, on four distinct accounts the swap succeeds iff the player holds the input, the price is defined, the mints match their vaults, the output vault answers to the market record and both receiving accounts have room |
| Ledgers.Ledger.SecureTransfer | programs/DungeonNFT/src/utils.rs:34-52 | the balance updates commit exactly `Tokens.Transfer`, or fail with its error and change nothing |
| Ledgers.Ledger.CloseAccount | programs/DungeonNFT/src/utils.rs:54-74 | the deletion commits exactly `Tokens.Close`, or fails with its error and changes nothing |
| Ledgers.Ledger.TransactionSetup | programs/DungeonNFT/src/instructions/transaction_setup.rs:6-25 | the field-by-field writes commit exactly `Escrow.Setup` |
| Ledgers.Ledger.DepositByBothParties | programs/DungeonNFT/src/instructions/deposit_by_both_parties.rs:6-62 | the two transfers and two field writes commit exactly `Escrow.Deposit`, rolled back whole on any failure |
| Ledgers.Ledger.TransferToWinner | programs/DungeonNFT/src/instructions/transfer_to_winner.rs:6-47 | transfer, close, stage write and record close commit exactly `Escrow.TransferToWinner` |
| Ledgers.Ledger.PullBack | programs/DungeonNFT/src/instructions/pullback.rs:6-61 | assertion, two refunds, close and record close commit exactly `Escrow.PullBack` |
| Ledgers.Ledger.AmmSetup | programs/DungeonNFT/src/instructions/amm_setup.rs:6-16 | the field writes on the new record commit exactly `Market.AmmSetup` |
| Ledgers.Ledger.AddLiquidity | programs/DungeonNFT/src/instructions/liquidity.rs:6-65 | the checks and two transfers commit exactly `Market.AddLiquidity` |
| Ledgers.Ledger.SwapTokens | programs/DungeonNFT/src/instructions/swap_tokens.rs:7-72 | the checks, pricing and two transfers commit exactly `Market.Swap` |
| Invariants.ValidPayoutFits | programs/DungeonNFT/src/instructions/transfer_to_winner.rs:26-27 | on a well-formed ledger `2 * amount_of_tokens` fits in a `u64` |
| Invariants.SetupPreservesValid | programs/DungeonNFT/src/instructions/transaction_setup.rs:6-55 | setup keeps every record well formed |
| Invariants.DepositPreservesValid | programs/DungeonNFT/src/instructions/deposit_by_both_parties.rs:6-62 | the deposit keeps every record well formed: the funded vault holds at least both deposits |
| Invariants.TransferToWinnerPreservesValid | programs/DungeonNFT/src/instructions/transfer_to_winner.rs:6-61 | the payout keeps every other record well formed |
| Invariants.PullBackPreservesValid | programs/DungeonNFT/src/instructions/pullback.rs:6-74 | the pull-back keeps every other record well formed |
| Invariants.AmmSetupPreservesValid | programs/DungeonNFT/src/instructions/amm_setup.rs:6-64 | market setup keeps every record well formed |
| Invariants.AddLiquidityPreservesValid | programs/DungeonNFT/src/instructions/liquidity.rs:6-65 | adding liquidity keeps every record well formed |
| Invariants.SwapPreservesValid | programs/DungeonNFT/src/instructions/swap_tokens.rs:7-72 | a swap keeps every record well formed |
| Invariants.DepositKeeps | programs/DungeonNFT/src/instructions/deposit_by_both_parties.rs:29-50 | the deposit debits only accounts of the two signing parties and closes none |
| Invariants.TransferToWinnerKeeps | programs/DungeonNFT/src/instructions/transfer_to_winner.rs:26-43 | the payout debits only the record's accounts and closes only its vault |
| Invariants.PullBackKeeps | programs/DungeonNFT/src/instructions/pullback.rs:30-58 | the pull-back debits only the record's accounts and closes only its vault |
| Invariants.AddLiquidityKeeps | programs/DungeonNFT/src/instructions/liquidity.rs:46-62 | adding liquidity debits only the signing beneficiary's accounts |
| Invariants.SwapKeeps | programs/DungeonNFT/src/instructions/swap_tokens.rs:67-69 | a swap debits only the signing player's and the market record's accounts |
| Invariants.SetupConservesSupply | programs/DungeonNFT/src/instructions/transaction_setup.rs:43-55 | setup leaves the supply of every mint unchanged |
| Invariants.DepositConservesSupply | programs/DungeonNFT/src/instructions/deposit_by_both_parties.rs:29-50 | the deposit leaves the supply of every mint unchanged |
| Invariants.DepositConservesHoldings | programs/DungeonNFT/src/instructions/deposit_by_both_parties.rs:29-50 | what the two parties' accounts and the vault hold together is unchanged by the deposit |
| Invariants.TransferToWinnerConservesSupply | programs/DungeonNFT/src/instructions/transfer_to_winner.rs:26-43 | the payout leaves the supply of every mint unchanged |
| Invariants.PullBackConservesSupply | programs/DungeonNFT/src/instructions/pullback.rs:30-58 | the pull-back leaves the supply of every mint unchanged |
| Invariants.AmmSetupConservesSupply | programs/DungeonNFT/src/instructions/amm_setup.rs:38-64 | market setup leaves the supply of every mint unchanged |
| Invariants.AddLiquidityConservesSupply | programs/DungeonNFT/src/instructions/liquidity.rs:46-62 | adding liquidity leaves the supply of every mint unchanged |
| Invariants.SwapConservesSupply | programs/DungeonNFT/src/instructions/swap_tokens.rs:67-69 | a swap leaves the supply of every mint unchanged |
| Program.Step | programs/DungeonNFT/src/lib.rs:19-63 | dispatching any instruction on a well-formed ledger yields a well-formed ledger |
| Program.StepConservesSupply | programs/DungeonNFT/src/lib.rs:19-63 | no instruction changes the supply of any mint |
| Outside.Call | programs/DungeonNFT/src/utils.rs:34-74 | a direct token-program call succeeds iff it is signed by the debited or closed account's authority (or, for a new account, by its key or at its associated address) and the token program accepts it; it changes no record |
| Outside.CallPreservesValid | programs/DungeonNFT/src/instructions/transaction_setup.rs:43-55 | every vault answers to a derived address that never signs, so no direct call can debit or close it and every record stays well formed |
| Outside.CallConservesSupply | programs/DungeonNFT/src/utils.rs:34-74 | a direct token-program call leaves the supply of every mint unchanged |
| Program.Apply | programs/DungeonNFT/src/lib.rs:19-63 | a transaction of either kind, run on a well-formed ledger, yields a well-formed ledger |
| Program.ApplyConservesSupply | programs/DungeonNFT/src/lib.rs:19-63 | no transaction of either kind changes the supply of any mint |
| Program.Run | programs/DungeonNFT/src/lib.rs:19-63 | any sequence of program instructions and direct token-program calls, each committed whole or not at all, keeps the ledger well formed |
| Program.RunConservesSupply | programs/DungeonNFT/src/lib.rs:19-63 | any sequence of program instructions and direct token-program calls keeps the supply of every mint |
| Program.ReachablePayoutFits | programs/DungeonNFT/src/instructions/transfer_to_winner.rs:26-27 | on every ledger reachable from one without records through the program's instructions and direct token-program calls, every payout `2 * amount_of_tokens` fits in a `u64` |
| Scenarios.EscrowDepositOracle | tests/DungeonNFTEscrow.ts:119-145 | setup signed by the player alone, then a deposit of 10: both parties at 90, the vault at 20 |
| Scenarios.EscrowPayoutOracle | tests/DungeonNFTEscrow.ts:191-221 | paying either party: the winner goes from 90 to 110, and the vault and record are gone |
| Scenarios.EscrowPullBackOracle | tests/DungeonNFTEscrow.ts:258-296 | pulling back instead: both parties at 100 again, and the ledger as it started |
| Scenarios.LiquidityOracle | tests/DungeonNFTAMM.ts:159-187 | market setup and a first deposit of 50 tokens and 2 sol: beneficiary 50/3, vaults 50/2 |
| Scenarios.SwapStep | programs/DungeonNFT/src/instructions/swap_tokens.rs:31-69 | on the test's accounts, a swap priced at `SwapOut` moves exactly the four balances |
| Scenarios.FirstSwapOracle | tests/DungeonNFTAMM.ts:195-223 | swapping 1 sol: player 116,666,666,667 tokens and 4 sol, vaults 33,333,333,333 and 3 sol |
| Scenarios.SecondSwapOracle | tests/DungeonNFTAMM.ts:231-259 | swapping 50 tokens back: player 66,666,666,667 tokens and 5,800,000,001 sol, vaults 83,333,333,333 and 1,199,999,999 |

## Left out

- Escrow.TransferToWinner: requires `2 * amount_of_tokens` to fit in a `u64`. Whether the unchecked product in the source traps or wraps depends on a build setting that is not part of this model. `Program.ReachablePayoutFits` shows the bound holds on every ledger reachable through the program's instructions and the direct token-program calls of `Outside`. Over a wrapped-SOL vault holding a surplus, the model's payout fails at the close, where the token program would close the vault and unwrap the surplus (see `Tokens.Close` below).
- Escrow.PullBack: requires the same `2 * amount_of_tokens` bound, for the same reason.
- Ledgers.Ledger.TransferToWinner: requires the same bound as `Escrow.TransferToWinner`.
- Ledgers.Ledger.PullBack: requires the same bound as `Escrow.PullBack`.
- Market.AddLiquidity: the exact four-balance effect is stated only when the two source accounts and the two vaults are four distinct accounts. When a source is also a vault, the function still computes the token program's result, but the contract does not spell it out.
- Market.Swap: the four-balance effect is likewise stated only when the player's two accounts and the two vaults are distinct.
- Market.AddLiquiditySucceeds: the success condition is stated for four distinct accounts only, like the effect of `Market.AddLiquidity`.
- Market.SwapSucceeds: the success condition is stated for four distinct accounts only, like the effect of `Market.Swap`.
- Tokens.Close: every mint is treated as non-native. The token program also closes a wrapped-SOL (native mint) account that still holds a balance, sending that balance out as lamports; the model reports `NonNativeHasBalance` instead. Lamports are not modelled, so the unwrapped balance has nowhere to go in this model.
- Direct token-program calls other than those in `Outside` are not steps of `Program.Run`: minting, burning, approvals and delegated transfers, `set_authority`, freezing, and `sync_native`. Minting and burning change supplies, so `Program.RunConservesSupply` is about the program and the calls of `Outside` only.
- Pricing.SwapOut: the u128 subtraction `amount_in - fee` is modelled as an abort when the fee exceeds the input, which assumes overflow checks are on. The other u128 steps always fit (`Pricing.SwapFitsU128`). The final `as u64` cast never truncates, because the output is at most the output reserve.
- Lamports are not modelled: rent, the lamports returned on `close`, and the payer of `init`. Native SOL balances are not modelled either; "sol" is the wrapped-SOL mint the market uses.
- Delegates, frozen accounts, mint accounts and mint authorities of the token program are not modelled. A token account is its mint, authority and balance.
- The bump search and the SHA-256 and off-curve address derivation are not modelled. A derived address is an injective constructor of its seeds, and bumps are arguments stored as given.
- When several Anchor constraints fail at once, the model reports the first of its own fixed order. The runtime's order and its exact error codes are not modelled.
- `state::MarketState::LEN` (amm_setup.rs:28) is not defined in `state.rs`. `State.MarketState` is inferred from the fields the handlers use, and its size is not modelled.
- `lib.rs` is modelled only as dispatch (`Program.Step`). `instructions/mod.rs`, `error.rs` and the `msg!` logging are not part of this model. The two error codes of `error.rs` appear in `Errors.Error`.
- Concurrency and the serialization of transactions are out of scope. `Program.Run` treats transactions as executed one at a time, each committed whole or not at all.
