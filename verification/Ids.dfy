/** Opaque identifiers: the source's UUIDs and socket ids, compared only for equality. */
module Ids {
  type RoomId = int
  type SocketId = int
  type UserId = int
}
