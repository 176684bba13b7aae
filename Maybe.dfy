/** Optional values and results with an error, for JavaScript's `undefined` and `throw`. */
module Maybe {

  datatype Option<T> = None | Some(value: T)

  datatype Result<T, E> = Ok(value: T) | Err(error: E)
}
