/** Values shared by every part of the CarZone model: Go's `error` returns,
    optional values and the 128-bit identities of cars and engines. */
module Common {

  datatype Option<+T> = None | Some(value: T)

  /** A Go `error` value. The code only ever reads its message or passes it on. */
  datatype Error = Error(message: string)

  /** The `(T, error)` pair a Go function returns, where exactly one side is used. */
  datatype Result<+T> = Ok(value: T) | Err(error: Error)

  /** A lone `error` return: nil (`Pass`) or an error (`Fail`). */
  datatype Outcome = Pass | Fail(error: Error)

  /** `uuid.UUID` is sixteen bytes; read as one unsigned 128-bit number. */
  const UuidSpace: int := 0x1_0000_0000_0000_0000_0000_0000_0000_0000

  type Uuid = x: int | 0 <= x < UuidSpace

  /** A Go `string` is a sequence of bytes; here each byte is held as a
      character below 256, so lengths and slices count bytes as Go does.
      Text in UTF-8 takes one element per byte of its encoding. */
  predicate IsBytes(s: string)
  {
    forall i :: 0 <= i < |s| ==> s[i] as int < 256
  }

  type Bytes = s: string | IsBytes(s)

  /** `uuid.Nil`, the all-zero identity. */
  const NilUuid: Uuid := 0
}
