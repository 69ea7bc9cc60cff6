/** Fixed-width integers, identifiers and Option, shared by the session model. */
module Base {

  /** Go's int32: used for dimensions, block and chunk coordinates, effect types. */
  newtype int32 = x: int | -0x8000_0000 <= x < 0x8000_0000

  /** Go's int64: entity unique IDs and boss-bar IDs. */
  newtype int64 = x: int | -0x8000_0000_0000_0000 <= x < 0x8000_0000_0000_0000

  /** Go's uint64: entity runtime IDs. */
  newtype uint64 = x: int | 0 <= x < 0x1_0000_0000_0000_0000

  type byte = bv8

  /** A UUID is sixteen bytes (uuid.UUID, and the [16]byte keys of the player list). */
  type Uuid = s: seq<byte> | |s| == 16
    witness [0, 0, 0, 0, 0, 0, 0, 0, 0, 0, 0, 0, 0, 0, 0, 0]

  /** The zero value of a UUID, which Go's make() puts in a fresh slice of entries. */
  const ZeroUuid: Uuid := [0, 0, 0, 0, 0, 0, 0, 0, 0, 0, 0, 0, 0, 0, 0, 0]

  /** Stands for a Go pointer or interface that may be nil. */
  datatype Option<T> = None | Some(value: T)
}
