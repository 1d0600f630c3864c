/** Optional values and results with an error, for the places where the
    reporting pipeline has "no value" (pandas NaN, Mongo null) or raises. */
module Options {

  datatype Option<+T> = None | Some(value: T)

  datatype Result<+T, +E> = Ok(value: T) | Err(error: E)
}
