/** Failure-carrying values shared by every module of the model, and the
    Python exceptions the modelled code can raise. */
module Wrappers {

  datatype Option<+T> = None | Some(value: T)

  /** The value a Python function returns, or the exception it raises. */
  datatype Result<+T> = Ok(value: T) | Err(error: Error)

  /** The outcome of a Python procedure that returns nothing useful. */
  datatype Outcome = Pass | Fail(error: Error)

  /** The argument of a Python `KeyError`: a dictionary key, a class code,
      or the list of column labels pandas could not find. */
  datatype Key = Name(name: string) | Code(code: int) | Names(names: seq<string>)

  /** The exceptions raised by the modelled code.  `ConversionError` stands for
      the `ValueError` that `int(…)` or `float(…)` raises on a token it cannot
      convert; `IndexError` for indexing past the end of a token list. */
  datatype Error =
    | ValueError(message: string)
    | ConversionError(token: string)
    | KeyError(key: Key)
    | IndexError
    | FileNotFoundError(message: string)
}
