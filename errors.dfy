/** The driver's crate-wide error type and the unit-or-error outcome of its setters. */
module Errors {
  import opened Ascii

  /** `Error` of the driver: transport failures and the two validation failures. */
  datatype Error =
    | Read
    | Write
    | InvalidChannel(channel: U8)
    | InvalidBaudRate

  /** Rust's `Result<(), E>`: a setter either succeeds or reports why it refused. */
  datatype Outcome<E> = Ok | Err(error: E)
}
