/** Values recorded for one probe of a site: `Option<Result<u16, ()>>` in the source.
    `None` means the site has not been probed yet, `Some(Ok(code))` a response with an
    HTTP status code, `Some(Err)` a probe that failed (timeout, transport error). */
module Status {

  /** Rust's `u16`: the width of an HTTP status code. */
  newtype u16 = x: int | 0 <= x < 0x1_0000

  datatype Option<T> = None | Some(value: T) {
    /** `Option::unwrap_or`: the held value, or `default` when there is none. */
    function UnwrapOr(default: T): (r: T)
      ensures Some? ==> r == value
      ensures None? ==> r == default
    {
      match this
      case Some(v) => v
      case None => default
    }
  }

  /** `Result<u16, ()>`: the outcome of a probe that completed. */
  datatype Outcome = Ok(code: u16) | Err

  /** One entry of a site's history. */
  type StatusCode = Option<Outcome>
}
