/** Optional values and success-or-failure results, used in place of Python's
    `None` defaults and raised exceptions. */
module Results {

  datatype Option<+T> = None | Some(value: T)

  datatype Result<+T, +E> = Ok(value: T) | Err(error: E)
}
