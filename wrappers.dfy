/** Option and Result values, and the error value that Go code returns as `error`. */
module Wrappers {

  datatype Option<+T> = None | Some(value: T) {
    function GetOr(default: T): T {
      match this
      case Some(v) => v
      case None => default
    }
  }

  /** A Go `error`: its `Error()` text, and whether the Kubernetes API would
      classify it as NotFound (`apierrors.IsNotFound`, which also looks through
      `%w` wrapping). */
  datatype Error = Error(msg: string, notFound: bool)

  /** An error made by `fmt.Errorf` or `errors.New` (never NotFound). */
  function Errorf(msg: string): Error {
    Error(msg, false)
  }

  /** `fmt.Errorf(prefix + "%w", e)`: the text is prefixed, the wrapped error's class is kept. */
  function Wrap(prefix: string, e: Error): Error {
    Error(prefix + e.msg, e.notFound)
  }

  datatype Result<+T> = Ok(value: T) | Fail(error: Error)

  newtype byte = x: int | 0 <= x < 0x100
  type Bytes = seq<byte>

  newtype uint64 = x: int | 0 <= x < 0x1_0000_0000_0000_0000
}
