/** Failure-carrying return values. The compiler is fail-fast: every `Abort`
    of the lexer and the parser ends the compilation, so each operation that
    can abort returns one of these instead of exiting the process. */
module Results {

  /** The value of an operation that either succeeds or aborts with an error. */
  datatype Result<+T, +E> = Ok(value: T) | Err(error: E) {

    predicate IsFailure() {
      Err?
    }

    function PropagateFailure<U>(): Result<U, E>
      requires Err?
    {
      Err(error)
    }

    function Extract(): T
      requires Ok?
    {
      value
    }
  }

  /** The outcome of an operation that only succeeds or aborts. */
  datatype Outcome<+E> = Pass | Fail(error: E) {

    predicate IsFailure() {
      Fail?
    }

    function PropagateFailure(): Outcome<E>
      requires Fail?
    {
      this
    }
  }
}
