/** Two small Python-runtime notions shared by the whole model:
    - Option<T>: a value that may be absent (a missing header, a failed parse);
    - Eval<T>: the result of evaluating a Python expression that may raise
      an exception the handler does not catch.
 */
module Py {

  datatype Option<+T> = None | Some(value: T) {

    /** The value, or `default` when absent (Python's `d.get(k, default)`). */
    function OrElse(default: T): T {
      match this
      case Some(v) => v
      case None => default
    }
  }

  /** An expression either produces a value or raises; a raise that nothing
      catches ends the invocation with an error. */
  datatype Eval<+T> = Ok(value: T) | Raised
}
