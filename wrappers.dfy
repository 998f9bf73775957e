/** Failure-compatible wrappers shared by the modules of this project. */
module Wrappers {

  datatype Option<+T> = None | Some(value: T)
  {
    function GetOr(default: T): T
    {
      match this
      case Some(v) => v
      case None => default
    }
  }

  /** A Python exception that ends an operation early. */
  datatype Error =
    | KeyError(key: string)     // `d[key]` on a dictionary without `key`
    | ValueError(key: string)   // `int(...)` / `float(...)` of the text stored under `key`, a tuple
                                // unpacking of its split, or `AGE_CATS.index` of a value not listed

  datatype Result<+T> = Ok(value: T) | Err(error: Error)
  {
    predicate IsFailure() { Err? }

    function PropagateFailure<U>(): Result<U>
      requires Err?
    {
      Err(error)
    }

    function Extract(): T
      requires Ok?
    {
      value
    }
  }
}
