/** Failure-compatible wrappers shared by the model: `Option` stands for a
    Kotlin nullable value, `Result` for a computation that may throw. */
module Common {

  datatype Option<+T> = None | Some(value: T)

  datatype Result<+T, +E> = Success(value: T) | Failure(error: E)
}
