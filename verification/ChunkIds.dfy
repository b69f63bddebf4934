/** What identifies a chunk. */
module ChunkIds {
  /** A chunk UUID, as the integer it is compared by. */
  type ChunkId = int
}
