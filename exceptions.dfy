/**
 * The single error kind of the helper library (oclhelpers.hpp, class
 * OCLHelpersException, a std::runtime_error carrying one message) and the
 * result types through which a thrown exception is modelled: a helper that
 * throws returns `Err`/`Fail` with the exception, one that returns normally
 * returns `Ok`/`Pass`.
 */
module Exceptions {

  /** An exception carries its message string unchanged (what()). */
  datatype OclHelpersException = OclHelpersException(what: string)

  /** The value a helper returns, or the exception it throws. */
  datatype Result<+T> = Ok(value: T) | Err(error: OclHelpersException) {

    predicate IsFailure() {
      Err?
    }

    function PropagateFailure<U>(): Result<U>
      requires Err?
    {
      Err(error)
    }

    function Extract(): T
      requires Ok?
    {
      value
    }
  }

  /** The outcome of a helper that returns nothing (void) or throws. */
  datatype Outcome = Pass | Fail(error: OclHelpersException) {

    predicate IsFailure() {
      Fail?
    }

    function PropagateFailure<U>(): Result<U>
      requires Fail?
    {
      Err(error)
    }
  }
}
