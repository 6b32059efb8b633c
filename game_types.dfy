/** Values the game hands to the renderer and the pathfinder. Their internals are
    not part of this model: block states, block entities, biomes, light layers and
    colour resolvers are opaque, and only the identity of a colour resolver is
    ever compared. */
module GameTypes {

  /** A block state; `(0)` because the renderer allocates arrays of them. */
  type BlockState(0)

  /** A block entity (chest contents, sign text, ...). */
  type BlockEntity

  /** A biome. */
  type Biome

  /** A light layer (sky or block light). */
  type LightLayer

  /** A colour resolver (grass, foliage, water tint); compared by identity. */
  type ColorResolver(==)

  /** Java's `null` for a value that may be absent. */
  datatype Option<+T> = None | Some(value: T)

  /** A block position in world coordinates. */
  datatype BlockPos = BlockPos(x: int, y: int, z: int)

  /** A section position: block coordinates divided by 16. */
  datatype SectionPos = SectionPos(x: int, y: int, z: int)
  {
    /** `minBlockX()` and friends: `x << 4`. */
    function MinBlockX(): int { x * 16 }
    function MinBlockY(): int { y * 16 }
    function MinBlockZ(): int { z * 16 }

    /** `maxBlockX()` and friends: `(x << 4) + 15`. */
    function MaxBlockX(): int { x * 16 + 15 }
    function MaxBlockY(): int { y * 16 + 15 }
    function MaxBlockZ(): int { z * 16 + 15 }
  }

  /** A live chunk section (`LevelChunkSection`, `ChunkSection` under the older
      names): whether it holds any non-air block, and its block lookup in
      section-local coordinates [0,16). */
  datatype ChunkSection = ChunkSection(isEmpty: bool, blockState: (int, int, int) -> BlockState)

  /** `isEmpty(section)` of the section class: an absent section is empty too. */
  predicate SectionIsEmpty(s: Option<ChunkSection>)
  {
    s.None? || s.value.isEmpty
  }

  /** The section holding a block: Java's `coord >> 4` on every axis, which is
      floor division and so equal to Dafny's Euclidean `/ 16`. */
  function SectionOf(p: BlockPos): (s: SectionPos)
    ensures s.MinBlockX() <= p.x <= s.MaxBlockX()
    ensures s.MinBlockY() <= p.y <= s.MaxBlockY()
    ensures s.MinBlockZ() <= p.z <= s.MaxBlockZ()
  {
    SectionPos(p.x / 16, p.y / 16, p.z / 16)
  }
}
