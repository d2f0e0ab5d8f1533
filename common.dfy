/** Values shared by every part of the texture backend: the exceptions the
    backend throws, the failure-compatible wrappers that stand for them, and
    native Vulkan handles with their Null sentinel. */
module Common {

  /** The .NET exceptions thrown by the texture backend. `ArgumentOutOfRange`
      carries the name of the offending parameter. */
  datatype Error =
    | InvalidOperation
    | NotSupported
    | NotImplemented
    | ArgumentOutOfRange(param: string)

  /** A computation that returns a value or throws. */
  datatype Result<+T> = Ok(value: T) | Err(error: Error) {
    predicate IsFailure() { Err? }
    function PropagateFailure<U>(): Result<U>
      requires Err?
    {
      Err(error)
    }
    function Extract(): T
      requires Ok?
    {
      value
    }
  }

  /** A reference that may be null. */
  datatype Option<+T> = None | Some(value: T)

  /** A statement that completes or throws. */
  datatype Outcome = Pass | Fail(error: Error)

  /** An opaque native handle (image, buffer, device memory, image view).
      `Null` is the sentinel the API uses for "no object"; live handles are
      told apart by an identifier the device hands out. */
  datatype Handle = Null | Live(id: nat)
}
