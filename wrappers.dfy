/** Optional values and results.  `Error` names the Python exception a
    failing operation raises. */
module Wrappers {

  datatype Option<T> = None | Some(value: T)

  datatype Error = ValueError | AttributeError | KeyError | IndexError | TypeError | ZeroDivisionError

  datatype Result<T> = Ok(value: T) | Err(error: Error)
  {
    predicate IsFailure() { Err? }

    function PropagateFailure<U>(): Result<U>
      requires Err?
    {
      Err(error)
    }

    function Extract(): T
      requires Ok?
    {
      value
    }
  }

  /** Python truthiness of an optional collection: `None` and empty are false. */
  predicate Truthy<K, V>(d: Option<map<K, V>>) {
    d.Some? && |d.value| > 0
  }
}
