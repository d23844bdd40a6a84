/** Small value-carrying wrappers used across the model. */
module Results {

  /** A value that may be absent (JavaScript's `null`/`undefined`). */
  datatype Option<+T> = None | Some(value: T)

  /** The outcome of one network request: a parsed body, or any failure
      (network error, non-2xx status, unparseable body). */
  datatype Response<+T> = Received(body: T) | Failed
}
