// The layout constants of driver/config.h and the arithmetic of physical addresses.
// A chunk is 0x40000 sectors: 511 purge slots of 0x200 sectors, then the control area.
// A block is 8 sectors; a purge slot holds at most 63 blocks before its control sector.
module Geometry {

  const SIZE_OF_CACHE: nat := 0x200
  const SIZE_OF_CHUNK: nat := 0x40000
  const LAST_PURGE_POS: nat := 0x3fe00
  const LAST_CACHE_POS: nat := 0x1f8
  const NOT_MAPPED: nat := 0xffffffff

  // The number of block entries in a chunk's table: LAST_PURGE_POS >> 3.
  const TABLE_SIZE: nat := 0x7fc0

  const LEVELING_VERSION: nat := 1000

  function Plba(chunk: int, offset: int): int {
    0x40000 * chunk + offset
  }

  function ChunkOf(plba: int): int {
    plba / 0x40000
  }

  // The index in the chunk's table of the block that starts at plba.
  function SlotOf(plba: int): int {
    plba % 0x40000 / 8
  }

  // Chunk 0 keeps the partition table and the configuration in its first purge slot.
  function StartOf(chunk: int): nat {
    if chunk == 0 then 0x200 else 0
  }

  function StartSlot(chunk: int): nat {
    if chunk == 0 then 0x40 else 0
  }

  predicate InChunk(plba: int, chunk: int) {
    0x40000 * chunk <= plba < 0x40000 * chunk + 0x40000
  }

  lemma PlbaParts(chunk: int, slot: int)
    requires 0 <= slot < 0x8000
    ensures ChunkOf(Plba(chunk, 8 * slot)) == chunk
    ensures SlotOf(Plba(chunk, 8 * slot)) == slot
  {
    assert 0x40000 * chunk + 8 * slot == chunk * 0x40000 + 8 * slot;
    assert (0x40000 * chunk + 8 * slot) / 0x40000 == chunk;
    assert (0x40000 * chunk + 8 * slot) % 0x40000 == 8 * slot;
  }

  lemma InChunkIff(plba: int, chunk: int)
    ensures InChunk(plba, chunk) <==> ChunkOf(plba) == chunk
  {
  }

  // The chunks lie behind each other.
  lemma ChunksApart(c: int, d: int)
    requires c < d
    ensures Plba(c, 0x40000) <= Plba(d, 0)
  {
  }
}
