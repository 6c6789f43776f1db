/** Small shared vocabulary: optional values, results, and the HTTP status
    codes the views answer with. */
module Common {

  /** A value that may be absent: a nullable column, or a key missing from
      a request body (`request.data.get(...)` returning `None`). */
  datatype Option<+T> = None | Some(value: T)

  /** The outcome of an operation that may fail with an error value. */
  datatype Result<+T, +E> = Ok(value: T) | Err(error: E)

  /** HTTP status codes, as the views return them. */
  type StatusCode = nat

  const HTTP_200_OK: StatusCode := 200
  const HTTP_201_CREATED: StatusCode := 201
  const HTTP_400_BAD_REQUEST: StatusCode := 400
  const HTTP_403_FORBIDDEN: StatusCode := 403
  const HTTP_404_NOT_FOUND: StatusCode := 404
  /** What Django answers when a view raises an exception it does not catch. */
  const HTTP_500_INTERNAL_SERVER_ERROR: StatusCode := 500

  function Min(a: int, b: int): int
  {
    if a <= b then a else b
  }
}
