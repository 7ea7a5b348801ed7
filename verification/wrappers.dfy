/** Failure-carrying results used where the Rust code returns `Result`/`Option`
    or panics (an `unwrap`, an index out of bounds, a length mismatch). */
module Wrappers {

  datatype Option<+T> = None | Some(value: T)

  /** `Err` carries a short reason; the Rust code uses `()` or an `anyhow` message. */
  datatype Result<+T> = Ok(value: T) | Err(reason: string)
}
