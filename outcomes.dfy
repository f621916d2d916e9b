/** Failures of the send-ETH service and the result type that carries them.
    The service code raises Python exceptions and catches none of them; here a
    raised exception is a `Failure` value that `:-` propagates to the caller. */
module Outcomes {

  /** What went wrong: an error raised by the chain client (node, connection
      or signer), or a value that the unit conversion refused. */
  datatype Error =
    | ChainError(message: string)
    | ValueError(message: string)

  datatype Result<+T> = Success(value: T) | Failure(error: Error) {

    predicate IsFailure() {
      Failure?
    }

    function PropagateFailure<U>(): Result<U>
      requires Failure?
    {
      Failure(error)
    }

    function Extract(): T
      requires Success?
    {
      value
    }
  }
}
