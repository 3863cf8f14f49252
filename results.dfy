/** Option and Result values for the model's error paths: every place where
    the Python code raises an exception returns a `Failure` here. */
module Results {

  datatype Option<+T> = None | Some(value: T)

  datatype Result<+R, +E> = Success(value: R) | Failure(error: E)
}
