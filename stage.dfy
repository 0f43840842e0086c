/** The escrow stage and its one-byte encoding. */
module Stages {
  import opened Keys
  import opened Errors

  datatype Stage = Initialized | FundsDeposited | EscrowComplete

  /** `Stage::to_code`. */
  function ToCode(s: Stage): (code: u8)
    ensures 1 <= code <= 3
  {
    match s
    case Initialized => 1
    case FundsDeposited => 2
    case EscrowComplete => 3
  }

  /** `Stage::from`: decodes the stored byte; every other byte is `StageInvalid`. */
  function FromCode(v: u8): (r: Result<Stage>)
    ensures r.Ok? <==> 1 <= v <= 3
    ensures r.Ok? ==> ToCode(r.value) == v
    ensures r.Err? ==> r.error == StageInvalid
  {
    match v
    case 1 => Ok(Initialized)
    case 2 => Ok(FundsDeposited)
    case 3 => Ok(EscrowComplete)
    case _ => Err(StageInvalid)
  }

  /** Decoding an encoded stage gives the stage back. */
  lemma FromToCode(s: Stage)
    ensures FromCode(ToCode(s)) == Ok(s)
  {
  }

  /** Distinct stages have distinct codes. */
  lemma ToCodeInjective(s: Stage, t: Stage)
    ensures ToCode(s) == ToCode(t) ==> s == t
  {
  }

  /** A zeroed record (stage byte 0) is not a valid stage. */
  lemma ZeroIsInvalid()
    ensures FromCode(0) == Err(StageInvalid)
  {
  }
}
