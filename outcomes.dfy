/** Optional values and results carrying the Python exceptions that the
    manifest accessors and the first-piece check can raise. */
module Outcomes {

  datatype Option<+T> = None | Some(value: T)

  /** The exceptions the modelled code can raise, by Python class. */
  datatype Error =
    | KeyError(key: seq<bv8>)  // `d[k]` on a dictionary without the key `k`
    | TypeError                 // subscripting or iterating a value of the wrong kind
    | AttributeError            // `.decode()` or `.copy()` on a value that lacks the method
    | UnicodeDecodeError        // `.decode()` on bytes that are not valid UTF-8
    | ValueError                // `read(n)` on a buffered file with `n < -1`
    | OverflowError             // an integer argument outside the C `Py_ssize_t` range
    | AssertionError            // a failed `assert` statement

  /** A computation that either returns a value or raises; usable with `:-`. */
  datatype Result<+T> = Ok(value: T) | Err(error: Error) {

    predicate IsFailure() {
      Err?
    }

    function PropagateFailure<U>(): Result<U>
      requires Err?
    {
      Err(error)
    }

    function Extract(): T
      requires Ok?
    {
      value
    }
  }
}
