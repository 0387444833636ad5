/** Failure-carrying results shared by every module of the model.

    The repository signals every failure by throwing an `Error` whose text is
    the only payload; `Err` carries that text. */
module Wrappers {

  datatype Option<+T> = None | Some(value: T)

  datatype Result<+T> = Ok(value: T) | Err(error: string) {
    predicate IsFailure() {
      Err?
    }

    function PropagateFailure<U>(): Result<U>
      requires Err?
    {
      Err(error)
    }

    function Extract(): T
      requires Ok?
    {
      value
    }
  }

  /** A result that carries no value: the source's `Promise<void>` that may reject. */
  type Outcome = Result<()>

  const Pass: Outcome := Ok(())
}
