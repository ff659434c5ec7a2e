/** Option and Result, and the exceptions the modelled code raises. */
module Wrappers {

  datatype Option<+T> = None | Some(value: T)

  /** The Python exception classes the core raises, as values. */
  datatype Error =
    | ValidationError            // jsonschema rejected the input
    | ValueError                 // a bad identifier, a missing schema default, an unsupported checksum type, no timing
    | KeyError(key: string)      // a duplicate id on insert or a missing id on lookup
    | AttributeError(name: string)
    | TypeError                  // a call with bad arguments, or unpacking None
    | IndexError
    | AssertionError             // a failed `assert` in a constructor

  /** A value, or the exception raised instead; `:-` propagates the exception. */
  datatype Result<+R> = Success(value: R) | Failure(error: Error)
  {
    predicate IsFailure()
    {
      Failure?
    }

    function PropagateFailure<U>(): Result<U>
      requires Failure?
    {
      Failure(error)
    }

    function Extract(): R
      requires Success?
    {
      value
    }
  }
}
