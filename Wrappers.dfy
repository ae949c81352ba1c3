/** Failure-carrying values used across the model: Python exceptions and
    C++ assertion failures become `Err`, `None` becomes `Option.None`. */
module Wrappers {

  datatype Option<+T> = None | Some(value: T)

  /** The kind of exception the source raises on an error path. */
  datatype Error =
    | KeyError              // dictionary lookup of a missing key
    | IndexError            // `pop(0)` or indexing past the end of a list
    | ValueError            // explicit `raise ValueError`
    | AssertionError        // `assert` / `raise AssertionError` / C++ `assert(0)`
    | AttributeError        // attribute access on `None`
    | TypeError             // a value of the wrong kind

  datatype Result<+T> = Ok(value: T) | Err(error: Error)

  datatype Outcome = Pass | Fail(error: Error)
}
