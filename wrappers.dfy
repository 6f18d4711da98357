/** Option and Result, the failure-compatible datatypes the model uses for
    JavaScript's `undefined` and for a thrown exception. */
module Wrappers {

  datatype Option<+T> = None | Some(value: T)

  /** `Err(message)` stands for a thrown error whose `message` property is `message`. */
  datatype Result<+R> = Ok(value: R) | Err(message: string) {

    predicate IsFailure() {
      Err?
    }

    function PropagateFailure<U>(): Result<U>
      requires Err?
    {
      Err(message)
    }

    function Extract(): R
      requires Ok?
    {
      value
    }
  }
}
