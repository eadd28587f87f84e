/** Result types shared by the parsers (shared/src/datatypes.rs). */
module Datatypes {
  datatype PacketError =
    | TooSmall
    | NotValid
    | NotValidStringEncoding
    | NotValidFirstPacket
    | NotMatching
    | EncodingError

  datatype Option<+T> = None | Some(value: T) {
    predicate IsFailure() {
      None?
    }

    function PropagateFailure<U>(): Option<U>
      requires None?
    {
      None
    }

    function Extract(): T
      requires Some?
    {
      value
    }
  }

  datatype Result<+T> = Ok(value: T) | Err(error: PacketError) {
    predicate IsFailure() {
      Err?
    }

    function PropagateFailure<U>(): Result<U>
      requires Err?
    {
      Err(error)
    }

    function Extract(): T
      requires Ok?
    {
      value
    }
  }

  /** The codec's mode: undecided, raw Minecraft bytes, or framed proxy packets. */
  datatype Protocol = Unknown | MC(version: int) | Proxy(version: int)
}
