/** Optional values and Python-style exceptional results, shared by every module. */
module Wrappers {

  datatype Option<T> = None | Some(value: T)

  /** The exceptions the handler can raise, or swallow inside one of its `try` blocks. */
  datatype Exc =
    | IndexError      // indexing an empty string or a list that is too short
    | KeyError        // reading a dictionary key that is absent
    | NameError       // reading a local variable that was never bound
    | AttributeError  // calling a string method on a value that is not a string
    | ClientError     // an AWS call refused by the service or by the client's own validation
    | SystemExit      // `sys.exit()`

  /** The outcome of evaluating a Python expression: a value, or the exception it raised. */
  datatype Res<T> = Ok(value: T) | Raise(exc: Exc)
}
