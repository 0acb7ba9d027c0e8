/** Values shared by every module: optional values and fallible results. */
module Base {
  /** A value that may be absent (Rust `Option`, a TypeScript `undefined`). */
  datatype Option<T> = None | Some(value: T)

  /** The outcome of an operation that can fail with a message (Rust `anyhow::Result`). */
  datatype Result<T> = Ok(value: T) | Err(error: string)

  /** The value of an `Option`, or a fallback (Rust `unwrap_or`). */
  function UnwrapOr<T>(o: Option<T>, fallback: T): (r: T)
    ensures o.Some? ==> r == o.value
    ensures o.None? ==> r == fallback
  {
    if o.Some? then o.value else fallback
  }
}
