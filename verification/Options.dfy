/** The two ways a computation of this project can come back empty-handed. */
module Options {
  datatype Option<+X> = None | Some(value: X)

  datatype Result<+X, +E> = Ok(value: X) | Err(error: E)
}
