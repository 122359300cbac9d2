/** Failure-carrying values shared by every module of the model. */
module Results {

  datatype Option<+T> = None | Some(value: T)

  /** The outcome of a step that may stop the compilation, as `sys.exit` does in the source. */
  datatype Result<+T, +E> = Ok(value: T) | Err(error: E)
}
