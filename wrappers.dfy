/** Option and Result, and the Python exception classes the modelled scripts can raise. */
module Wrappers {

  datatype Option<T> = None | Some(value: T)

  /** The exceptions the modelled code raises (or lets propagate); each model names the one Python would raise. */
  datatype PyError =
    | ValueError         // bad unpack, int() of a non-number, numpy shape or range errors
    | IndexError         // indexing past the end of a list
    | IOError            // a file that cannot be opened, read or written
    | ZeroDivisionError
    | AssertionError
    | KeyError

  datatype Result<T> = Ok(value: T) | Err(error: PyError)
}
