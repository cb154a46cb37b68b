/** Values that stand for Python's `None` and for exceptions the modelled code lets escape. */
module Wrappers {

  /** A value or Python's `None`. */
  datatype Option<T> = None | Some(value: T)

  /** The exception classes the modelled code can raise. */
  datatype PyError =
    | IndexError      // indexing an empty sequence, or an index below -len
    | TypeError       // `int()` of an array that does not hold exactly one element
    | ValueError      // `inverse_transform` of a label the encoder has not seen
    | AttributeError  // `.lower()` called on `None`

  /** The outcome of a Python call: a returned value or a raised exception. */
  datatype Outcome<T> = Ok(value: T) | Raised(error: PyError)
}
