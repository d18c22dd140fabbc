/** Optional values, HTTP-style errors and the results the repository returns. */
module Results {

  datatype Option<+T> = None | Some(value: T)

  /** What `createError({ statusCode, statusMessage })` raises. */
  datatype HttpError = HttpError(statusCode: int, statusMessage: string)

  /** An operation either returns a value or raises an `HttpError`. */
  datatype Result<+T> = Ok(value: T) | Err(error: HttpError)

  /** `m.get(k) ?? default`. */
  function GetOr<K, V>(m: map<K, V>, k: K, default: V): V
  {
    if k in m then m[k] else default
  }

  /** A guard either lets the caller continue or raises an `HttpError`. */
  datatype Outcome = Pass | Fail(error: HttpError)
}
