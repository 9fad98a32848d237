/** Option and Result values shared by the routing modules. */
module Optional {

  /** A value that may be absent (Python's `None`). */
  datatype Option<T> = None | Some(value: T)

  /** Either a value or the exception the Python code raises instead. */
  datatype Result<T, E> = Ok(value: T) | Err(error: E)

  /** Python's `s or ''` for an optional string. */
  function OrEmpty(s: Option<string>): string {
    if s.Some? then s.value else ""
  }
}
