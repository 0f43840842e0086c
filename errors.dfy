/** Error kinds and the result types that carry them. */
module Errors {

  datatype Error =
    // the program's own error codes
    | StageInvalid
    | NotEnoughBalance
    // account validation done before the handler runs
    | AccountNotInitialized    // a named account does not exist
    | AccountInUse             // `init` on an address that already holds an account
    | MissingSigner            // a `Signer` account did not sign
    | ConstraintTokenOwner     // a token account's authority is not the required one
    | ConstraintAssociated     // not the associated token account of the authority and mint
    | ConstraintRaw            // a `constraint = ...` expression is false
    // the token program
    | InsufficientFunds
    | MintMismatch
    | OwnerMismatch
    | Overflow
    | NonNativeHasBalance
    // the Rust runtime: `unwrap` of `None`, a failed `assert!`, an arithmetic overflow
    | Panic

  datatype Result<T> = Ok(value: T) | Err(error: Error)
  {
    predicate IsFailure() { Err? }

    function PropagateFailure<U>(): Result<U>
      requires Err?
    {
      Err(error)
    }

    function Extract(): T
      requires Ok?
    {
      value
    }
  }

  /** The result of a step that yields no value. */
  datatype Outcome = Pass | Fail(error: Error)
  {
    predicate IsFailure() { Fail? }

    function PropagateFailure<U>(): Result<U>
      requires Fail?
    {
      Err(error)
    }
  }

  /** `require!(condition, error)`. */
  function Need(condition: bool, error: Error): Outcome
  {
    if condition then Pass else Fail(error)
  }
}
