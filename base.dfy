/** Results of the converter's steps: a value, or the Python exception the
    source would raise at that point. */
module Base {

  datatype Option<+T> = None | Some(value: T)

  /** The exception a step of the source raises. */
  datatype Fault =
    | KeyError(key: string)   // d[k] with k missing from the dict
    | TypeError               // an operation applied to a value of the wrong kind
    | ValueError              // float()/int() of malformed text, or unpacking the wrong number of items
    | IndexError              // a list index out of range
    | AttributeError          // a method looked up on a value that lacks it (including None)

  /** Failure-compatible result, so that steps can be chained with `:-`. */
  datatype Result<+T> = Ok(value: T) | Err(fault: Fault) {
    predicate IsFailure() { Err? }

    function PropagateFailure<U>(): Result<U>
      requires Err?
    {
      Err(fault)
    }

    function Extract(): T
      requires Ok?
    {
      value
    }
  }
}
