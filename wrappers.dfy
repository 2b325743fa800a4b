/** Option and Result types for the model, and the Python exceptions the
    modelled code can raise. */
module Wrappers {

  datatype Option<+T> = None | Some(value: T)

  /** The built-in Python exceptions the modelled code can raise, each at a
      dictionary lookup, a `list.index` call or a list subscript. */
  datatype PyError = KeyError | ValueError | IndexError

  /** The value of a Python expression: a result, or the exception it raises. */
  datatype Result<+T> = Ok(value: T) | Err(error: PyError)
}
