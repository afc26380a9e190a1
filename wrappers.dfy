/** Option, standing for Python's `None`-or-value results, and the Python
    exceptions the modelled code can raise. */
module Wrappers {
  datatype Option<+T> = None | Some(value: T)

  /** The exception classes the modelled code raises. */
  datatype Exception = TypeError | IndexError | KeyError | AttributeError | ValueError

  /** How a call that returns nothing ends: normally, or by raising. */
  datatype Outcome = Ok | Raised(error: Exception)
}
