/** The parts of `std::io` that the generated dispatch inspects: an error carries a
    kind from a fixed taxonomy and an opaque message; `io::Result<T>` is a result
    whose error side is such an error. */
module Io {
  import opened Wrappers

  /** The stable variants of `std::io::ErrorKind`. Only `BrokenPipe` is singled out
      by the dispatch; every other kind is treated alike. */
  datatype ErrorKind =
    | NotFound | PermissionDenied | ConnectionRefused | ConnectionReset
    | ConnectionAborted | NotConnected | AddrInUse | AddrNotAvailable
    | BrokenPipe | AlreadyExists | WouldBlock | InvalidInput | InvalidData
    | TimedOut | WriteZero | Interrupted | Unsupported | UnexpectedEof
    | OutOfMemory | Other

  /** `std::io::Error`: `kind()` is the classification; the message is never read. */
  datatype Error = Error(kind: ErrorKind, message: string)

  /** `std::io::Result<T>`. */
  type IoResult<T> = Result<T, Error>
}
