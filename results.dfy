/** Optional values and success-or-error results, used wherever the Python code
    has `Optional[...]` or raises instead of returning. */
module Results {

  datatype Option<+T> = None | Some(value: T)

  datatype Result<+T, +E> = Ok(value: T) | Err(error: E)
}
