/** The two wrapper types the model uses for values that may be absent
    (`null`, a missing key) and for operations that may fail. */
module Optional {

  datatype Option<+T> = None | Some(value: T)

  datatype Result<+T, +E> = Ok(value: T) | Err(error: E)
}
