/** Failure-compatible results shared by every module. */
module Wrappers {

  datatype Option<+T> = None | Some(value: T)

  /** The ways an operation can stop. A returned error and a Rust panic both end the
      command without writing the swap slate, so they share one type. */
  datatype Error =
    | NoInputs | BadFundValue | TooLittleValue | DuplicateInput
    | Overflow | BadFee | BadText
    | AmountMismatch | InputCountMismatch | TimelockMismatch
    | NoTransaction | NoParticipants | BadKey | KeySumIsInfinity
    | UnknownFeatures | FeaturesMissing | InvalidPartialSignature | InvalidSignature
    | IndexOutOfBounds | FeeDispute | KernelCount | InvalidTransaction | InvalidRangeProof
    | MissingSignature
    | NoChangeCoin | LockAddressMismatch | FundsNotVerified
    | NodeFailure | NoAcknowledgement | ChecksumMismatch | WrongStatus | NotFullyRedeemed | UnsignedInput
    | MissingLockTime | NotEnoughTime | TooEarly

  datatype Result<+T> = Ok(value: T) | Err(error: Error) {

    predicate IsFailure() { Err? }

    function PropagateFailure<U>(): Result<U>
      requires Err?
    {
      Err(error)
    }

    function Extract(): T
      requires Ok?
    {
      value
    }
  }
}
