/** Optional values, results, and the exceptions the modelled code raises. */
module Wrappers {

  datatype Option<+T> = None | Some(value: T)

  /** The Python exceptions that abort a conversion run. */
  datatype Error =
    | ValueError(message: string)   // a template or script file lacks a required field
    | KeyError(key: string)         // a subscript `d[key]` on a dict without that key
    | AttributeError(attr: string)  // an attribute used on a value that does not have it
    | TypeError(message: string)    // iteration over a value that is not iterable

  datatype Result<+T> = Ok(value: T) | Err(error: Error) {

    predicate IsFailure() {
      Err?
    }

    function PropagateFailure<U>(): Result<U>
      requires Err?
    {
      Err(error)
    }

    function Extract(): T
      requires Ok?
    {
      value
    }
  }
}
