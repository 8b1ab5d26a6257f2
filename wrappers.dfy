// Option and Result values standing for Python's None and for raised exceptions.
module Wrappers {

  datatype Option<T> = None | Some(value: T)

  /** The outcome of a Python call that may raise: its value, or the exception it raises. */
  datatype Result<T> = Success(value: T) | Failure(error: Error)

  /** The Python exception classes the modelled code raises, with the message where it matters. */
  datatype Error =
    | KeyError(key: string)
    | IndexError
    | ValueError
    | TypeError
    | AttributeError(name: string)
    | RuntimeError(message: string)
    | NotImplementedError(message: string)
    | PitchException
    | NameError(name: string)
}
