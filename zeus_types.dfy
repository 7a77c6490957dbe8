/** Value types shared by the hub's components. */
module ZeusTypes {
  import opened Wrappers

  /** One byte of a PostgreSQL `bytea` value, read as unsigned. */
  type Byte = b: int | 0 <= b < 256

  /** An opaque player-state blob, as stored in the `data` column. */
  type Blob = seq<Byte>

  /** A 128-bit player UUID. */
  type PlayerId = u: nat | u < 0x1_0000_0000_0000_0000_0000_0000_0000_0000

  /** The identifier a connected server reports through `getID()`. */
  type ServerId = string

  /** A coordinate; carried through unchanged, never computed with. */
  type Coord = real

  /** A world name, which may be null, and three coordinates (`ZeusLocation`). */
  datatype Location = Location(world: Option<string>, x: Coord, y: Coord, z: Coord)

  /** A backend game server a player can be placed on (`ArtemisServer`). */
  datatype Server = Server(id: ServerId)

  /** The raw address bytes of an `InetAddress` (4 for IPv4, 16 for IPv6). */
  type IpAddress = seq<Byte>
}
