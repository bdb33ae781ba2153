/** Failure-carrying values shared by the modules: the C++ code reports
    failure by throwing std::runtime_error or by returning std::nullopt;
    the model returns one of these instead. */
module Results {

  /** std::optional<T>. */
  datatype Option<+T> = None | Some(value: T)

  /** A value, or the error the C++ code would have thrown instead. */
  datatype Result<+T, +E> = Ok(value: T) | Err(error: E)

  /** A void function that either returns normally or throws. */
  datatype Outcome<+E> = Pass | Fail(error: E)
}
