/** Failure-carrying wrappers shared by the model: `Option` for values that may
    be absent (a step that has no output yet) and `Result` for operations that
    raise in the original program (assertions, shape errors, runtime errors). */
module Results {

  datatype Option<+T> = None | Some(value: T)

  datatype Result<+R, +E> = Success(value: R) | Failure(error: E)
}
