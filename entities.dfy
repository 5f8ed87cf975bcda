/** The application's entities and the Go integer widths they are stored in. */
module Entities {
  import opened Wrappers

  /** Go's `uint` (64 bits on the supported platforms). */
  type Uint = x: int | 0 <= x < 0x1_0000_0000_0000_0000

  /** Go's `uint32`, the width of the protobuf ids. */
  type Uint32 = x: int | 0 <= x < 0x1_0000_0000

  /** `uint32(x)`: Go keeps the low 32 bits. */
  function Narrow(x: Uint): (r: Uint32)
    ensures x < 0x1_0000_0000 ==> r == x
    ensures (x - r) % 0x1_0000_0000 == 0
  {
    x % 0x1_0000_0000
  }

  /**
   * A `time.Time`. Time values are only copied around by the modelled code,
   * so the representation does not matter; conversions to and from protobuf
   * timestamps are an input of the model (see `PbTransformers.TimeCodec`).
   */
  datatype Time = Time(unixNanos: int, zone: string)

  /** `time.Time{}`. */
  const ZeroTime: Time := Time(-62135596800000000000, "UTC")

  datatype User = User(
    id: Uint,
    createdAt: Time,
    updatedAt: Time,
    username: string,
    password: string,
    uuid: string,
    name: string,
    email: Option<string>)

  datatype KeyValuePair = KeyValuePair(key: string, value: string)

  datatype UserAttribute = UserAttribute(
    id: Uint,
    createdAt: Time,
    updatedAt: Time,
    userId: Uint,
    key: string,
    value: string)

  /** A buffered log record of the logging worker. */
  datatype Message = Message(id: Uint, createdAt: Time, updatedAt: Time, key: string, value: string)
}
