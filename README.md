# World slice and land-pathfinding node rules

A Dafny model of two pieces of a Minecraft rendering and performance mod.

**The render world slice (`WorldSlice`).** Each chunk render task starts from
`prepare`. It returns nothing when the origin section is absent or empty.
Otherwise it returns a render context holding three things:

- the origin section;
- a 20×20×20 bounding volume, which is the origin section widened by two blocks
  on every side;
- a 64-slot section table. Its 27 in-use slots hold the cloned sections within
  radius 1 of the origin.

A reusable `WorldSlice` then runs `copyData` on that context, in four steps:

1. It takes over the context.
2. It clears the tint memo.
3. It resets the 27 per-slot biome caches.
4. It unpacks each section, clipped against the volume, into a dense 8000-entry
   block array.

After that, block, block-entity and light queries are answered from the copies:
the dense array, or the clone of the section that holds the block. Biome queries
go through the biome cache of that section's slot, and tint queries through the
resolver's colour cache. Noise-biome queries ask the clone of the column's
bottom-layer section, and fall back to the live world where no clone covers the
column, or before any context.

**The land-pathfinding node rules (`LandPathNodeMakerMixin`).**
`getBlockPathTypeRaw` reads a block's node type from a per-state cache. A cached
OPEN is then confirmed by the land pathfindability check. `checkNeighbourBlocks`
scans the 24 neighbours of a position in y-z-x order and returns the first danger
it finds. It takes a fast exit, returning the input type, in one case. The reader
must be a collision reader and the neighbours must lie in the position's chunk.
The fast exit is then taken when the cached section is null or empty, or is
judged safe. The section is null above or below the build height and when there
is no chunk.

Files, each one module:

| file | module | contents |
|---|---|---|
| `game_types.dfy` | `GameTypes` | opaque game types, `BlockPos`, `SectionPos`, `ChunkSection`, `Option` |
| `slice_geometry.dfy` | `SliceGeometry` | constants, the bit-packed index functions, the dense block index |
| `slice_context.dfy` | `SliceContext` | collaborators, `prepare`, well-formed contexts, block-to-section arithmetic, clipping |
| `copy_order.dfy` | `CopyOrder` | why the dense array ends up right despite overlapping writes |
| `world_slice.dfy` | `WorldSlices` | the `WorldSlice` class, its biome and colour caches, `copyData`, the queries |
| `land_path_nodes.dfy` | `LandPathNodes` | `getBlockPathTypeRaw` and `checkNeighbourBlocks` |

How the model treats the code:

- **Java operators.** `x >> 4` and `x & 15` act on possibly negative world
  coordinates. They are Dafny's Euclidean `x / 16` and `x % 16`, which agree with
  Java's arithmetic shift and mask. `v << k` and `|` on the small non-negative
  index operands are written as `Shl` and `Or` on naturals. Lemmas prove the
  index functions equal to those shift-and-or expressions.
- **Collaborators.** The clone, `acquire`, the world's chunk lookup, the block
  reader and `PathNodeCache` are function-valued fields or parameters. Java
  `null` is `Option` or a nullable class type.
- **Imperative parts are classes and loops.** `WorldSlice` is a class whose
  methods change its fields and arrays. Its class invariant `Valid()` has four
  parts:
  - the constructor's allocation holds (`Allocated()`): an 8000-entry dense
    array, and in each of the 27 in-use slots its own biome cache, tagged with
    its slot, so no two slots share one. The set of allocated caches has exactly
    27 members, so the caches that `CopyData` may change are those of the table;
  - the tint memo is coherent;
  - before any context, the origin is null and every slot of the table is null;
  - once there is a context, the slice holds its snapshot (`Snapshot`). That
    covers the context's table, the origin, the base `(origin - 1) << 4` on
    each axis, and the dense array. For every block of the volume, the dense
    array holds the block of the section that contains it (`CopyOrder.Filled`).

  `prepare`, the constructor, `copyData` and `unpackBlockDataR` keep Java's
  triple loops, with invariants. `checkNeighbourBlocks` keeps its triple loop and
  its early returns, and it moves the caller's mutable position.

**The inclusive clip bound.** `unpackBlockDataR` clips a section at
`min(box.max, (pos + 1) << 4)` with `<=`. The bound is the first block of the
*next* section, so every section also writes one plane of its upper neighbours.
The model keeps that bound. `CopyOrder` proves that the extra writes do no harm.
`copyData` visits slots in x, then y, then z order. Every section that writes a
block has slot coordinates no larger, axis by axis, than those of the block's own
section, so the owning section writes last.

## Model

Source paths are relative to the repository root.

| member | source | states |
|---|---|---|
| SliceGeometry.ConstantsAgree | src/main/java/me/jellysquid/mods/sodium/client/world/WorldSlice.java:44-72 | The evaluated constants satisfy the defining equations: 16³ = 4096, 16 + 2·2 = 20, 20³ = 8000, 1 + 2·1 = 3, table length 4 = 2^2 ≥ 3, 4³ = 64 slots. |
| SliceGeometry.LocalBlockIndex | src/main/java/me/jellysquid/mods/sodium/client/world/WorldSlice.java:382-384 | `getLocalBlockIndex(x, y, z)` on [0,16)³ is `y·256 + z·16 + x`, and it is below 4096. |
| SliceGeometry.LocalBlockIndexMatchesJava | src/main/java/me/jellysquid/mods/sodium/client/world/WorldSlice.java:382-384 | `(y << 8) or (z << 4) or x` (bitwise or) equals the packed index y·256 + z·16 + x, which is below 4096. |
| SliceGeometry.LocalBlockIndexInjective | src/main/java/me/jellysquid/mods/sodium/client/world/WorldSlice.java:382-384 | Distinct local coordinates in [0,16)³ get distinct block indices. |
| SliceGeometry.LocalSectionIndex | src/main/java/me/jellysquid/mods/sodium/client/world/WorldSlice.java:386-388 | `getLocalSectionIndex(x, y, z)` on [0,4)³ is `y·16 + z·4 + x`, and it is below 64. |
| SliceGeometry.LocalSectionIndexMatchesJava | src/main/java/me/jellysquid/mods/sodium/client/world/WorldSlice.java:386-388 | `(y << 2 << 2) or (z << 2) or x` (bitwise or) equals the 2-bits-per-axis index, which is below 64. |
| SliceGeometry.LocalSectionIndexInjective | src/main/java/me/jellysquid/mods/sodium/client/world/WorldSlice.java:386-388 | Distinct slot coordinates in [0,4)³ get distinct slots, so the 27 in-use slots are distinct. |
| SliceGeometry.LocalChunkIndex | src/main/java/me/jellysquid/mods/sodium/client/world/WorldSlice.java:390-392 | `getLocalChunkIndex(x, z)` on [0,4)² is `z·4 + x`, and it is below 16. |
| SliceGeometry.LocalChunkIndexMatchesJava | src/main/java/me/jellysquid/mods/sodium/client/world/WorldSlice.java:390-392 | `(z << 2) or x` (bitwise or) equals the packed column index, which is below 16. |
| SliceGeometry.ChunkIndexIsBottomLayer | src/main/java/me/jellysquid/mods/sodium/client/world/WorldSlice.java:386-392 | `getLocalChunkIndex(x, z) == getLocalSectionIndex(x, 0, z)`. |
| SliceGeometry.SectionIndexRoundTrip | src/main/java/me/jellysquid/mods/sodium/client/world/WorldSlice.java:386-388 | Decoding a slot index gives back its coordinates, and a slot is in use exactly when all three coordinates are below 3. |
| SliceGeometry.SlotRoundTrip | src/main/java/me/jellysquid/mods/sodium/client/world/WorldSlice.java:386-388 | Every one of the 64 slots is the index of its decoded coordinates, so the index is onto [0,64). |
| SliceGeometry.BlockIndex | src/main/java/me/jellysquid/mods/sodium/client/world/WorldSlice.java:247-252 | For every block of a 20-wide box, `y2·400 + z2·20 + x2` lies in [0, 8000). |
| SliceGeometry.BlockIndexInjective | src/main/java/me/jellysquid/mods/sodium/client/world/WorldSlice.java:247-252 | Distinct blocks of the box get distinct indices. |
| SliceGeometry.BlockIndexRoundTrip | src/main/java/me/jellysquid/mods/sodium/client/world/WorldSlice.java:247-252 | Decoding a block's index gives back the block. |
| SliceGeometry.CoordRoundTrip | src/main/java/me/jellysquid/mods/sodium/client/world/WorldSlice.java:247-252 | Every index in [0, 8000) is the index of a block of the box, so the map is a bijection. |
| SliceContext.SliceVolume | src/main/java/me/jellysquid/mods/sodium/client/world/WorldSlice.java:120-125 | The origin section's block bounds widened by 2 on every side are a 20×20×20 box. |
| SliceContext.VolumeContainsOrigin | src/main/java/me/jellysquid/mods/sodium/client/world/WorldSlice.java:120-125 | Every block within two blocks of the origin section lies in the volume. |
| SliceContext.Prepare | src/main/java/me/jellysquid/mods/sodium/client/world/WorldSlice.java:109-148 | Returns nothing exactly when the origin section is absent or empty. Otherwise it returns the origin, the widened volume, and the table that the triple loop fills (`PreparedSections`). |
| SliceContext.PreparedSlotHoldsAcquired | src/main/java/me/jellysquid/mods/sodium/client/world/WorldSlice.java:128-145 | Each of the 27 sections within radius 1 is stored as `acquire(cx, cy, cz)` at slot `getLocalSectionIndex(cx - minX, cy - minY, cz - minZ)`. |
| SliceContext.PreparedSlotsFilled | src/main/java/me/jellysquid/mods/sodium/client/world/WorldSlice.java:136-145 | A slot of the prepared table is non-null exactly when it is in use, so the other 37 stay null. |
| SliceContext.PreparedContextIsValid | src/main/java/me/jellysquid/mods/sodium/client/world/WorldSlice.java:109-148 | When the pool clones the section it is asked for, the prepared context is well formed, in the form copyData and the queries rely on. |
| SliceContext.VolumeInTable | src/main/java/me/jellysquid/mods/sodium/client/world/WorldSlice.java:180-182 | Every block of the volume lies in the 48-block span of the section table starting at `(origin - 1) << 4`. |
| SliceContext.RelativeSlot | src/main/java/me/jellysquid/mods/sodium/client/world/WorldSlice.java:299-306 | With `rel = c - base`, `getLocalSectionIndex(relX >> 4, relY >> 4, relZ >> 4)` is the slot of the section holding the block, and `rel & 15` is `c & 15`. |
| SliceContext.OwnerSlot | src/main/java/me/jellysquid/mods/sodium/client/world/WorldSlice.java:299-306 | The slot addressed for a block of the table is in use and stands for the section that contains the block. |
| SliceContext.OwnerSlotFilled | src/main/java/me/jellysquid/mods/sodium/client/world/WorldSlice.java:299-306 | In a well-formed context, that slot holds the clone of the block's own section. |
| SliceContext.BottomLayerLookup | src/main/java/me/jellysquid/mods/sodium/client/world/WorldSlice.java:350-363 | `getLocalChunkIndex(a, c)` holds the clone of section (a, 0, c) when a, c < 3, and is null when either coordinate is 3. |
| SliceContext.ClipInsideBox | src/main/java/me/jellysquid/mods/sodium/client/world/WorldSlice.java:211-241 | Every block the clipped loops write lies in the box, so every write index is in [0, 8000). |
| SliceContext.ClipAxis | src/main/java/me/jellysquid/mods/sodium/client/world/WorldSlice.java:211-218 | Along one axis, the clip of the section at slot coordinate a covers only its own section and the next one. It covers every block of the volume that the section holds. |
| CopyOrder.UnpackDone | src/main/java/me/jellysquid/mods/sodium/client/world/WorldSlice.java:235-241 | Once the y loop is past the clip, every clipped block holds the section's block and every other block of the box is unchanged. |
| CopyOrder.CopyStep | src/main/java/me/jellysquid/mods/sodium/client/world/WorldSlice.java:184-194 | Unpacking the next slot in x-y-z order keeps every block of an earlier-owned section correct, because a later section never writes into it. It also makes every block of this slot's own section correct. |
| CopyOrder.CopyDone | src/main/java/me/jellysquid/mods/sodium/client/world/WorldSlice.java:184-194 | After all 27 slots, every block of the volume holds the block of the section that contains it. |
| WorldSlices.BiomeCache.GetBiome | src/main/java/me/jellysquid/mods/sodium/client/world/WorldSlice.java:368-375 | A remembered key answers from the memo. A new key answers the computed biome, which the cache then remembers. |
| WorldSlices.BiomeCache.Reset | src/main/java/me/jellysquid/mods/sodium/client/world/WorldSlice.java:189 | The memo is empty afterwards. |
| WorldSlices.WorldSlice.constructor | src/main/java/me/jellysquid/mods/sodium/client/world/WorldSlice.java:150-168 | Allocates an 8000-block array, an all-null table and a fresh, empty biome cache in each of the 27 in-use slots. Each cache is tagged with the slot it was made for. The slice is valid and has no context. |
| WorldSlices.WorldSlice.CachesDistinct | src/main/java/me/jellysquid/mods/sodium/client/world/WorldSlice.java:158-166 | In an allocated slice, two different in-use slots hold different biome cache objects, as one `new BiomeCache` per slot makes them. |
| WorldSlices.WorldSlice.CachesInTable | src/main/java/me/jellysquid/mods/sodium/client/world/WorldSlice.java:158-166 | In an allocated slice, every allocated biome cache sits in the table at its own in-use slot. The caches are the 27 made by the slot loop and no others. |
| WorldSlices.WorldSlice.CopyData | src/main/java/me/jellysquid/mods/sodium/client/world/WorldSlice.java:170-195 | After it, the slice holds the context, its origin and its table. The base is `(origin - 1) << 4`. The tint memo is null and the colour cache map is empty. All 27 biome caches are reset. Every block of the volume holds its own section's block. |
| WorldSlices.WorldSlice.UnpackSections | src/main/java/me/jellysquid/mods/sodium/client/world/WorldSlice.java:184-194 | The slot loop resets each of the 27 biome caches and leaves the dense array filled from the table. |
| WorldSlices.WorldSlice.UnpackBlockDataR | src/main/java/me/jellysquid/mods/sodium/client/world/WorldSlice.java:205-242 | Writes the section's block, at `x & 15, y & 15, z & 15`, into exactly the blocks of the box that the inclusive clip covers. Every other block is unchanged. |
| WorldSlices.WorldSlice.GetBlockState | src/main/java/me/jellysquid/mods/sodium/client/world/WorldSlice.java:264-265 | For a block of the volume, the dense array's entry is the owning section's block at `x & 15, y & 15, z & 15`. |
| WorldSlices.WorldSlice.GetBlockEntity | src/main/java/me/jellysquid/mods/sodium/client/world/WorldSlice.java:299-306 | The block entity of the clone that holds the block, at the block's coordinates within that section. |
| WorldSlices.WorldSlice.GetBrightness | src/main/java/me/jellysquid/mods/sodium/client/world/WorldSlice.java:329-336 | The light level of the clone that holds the block, at the block's coordinates within that section. |
| WorldSlices.WorldSlice.GetNoiseBiome | src/main/java/me/jellysquid/mods/sodium/client/world/WorldSlice.java:350-363 | Before any context, it always falls back to the world. With a context, take the slot coordinates `(x >> 2) - (baseX >> 4)` and `(z >> 2) - (baseZ >> 4)`. When both are below 3, the clone at that bottom-layer slot answers. When either is 3, the world's uncached lookup answers. |
| WorldSlices.WorldSlice.NoiseBiomeLookup | src/main/java/me/jellysquid/mods/sodium/client/world/WorldSlice.java:351-357 | `(x >> 2) - (baseX >> 4)` is the column's slot coordinate relative to the table. The slot is filled exactly when both coordinates are covered. |
| WorldSlices.WorldSlice.GetBiome | src/main/java/me/jellysquid/mods/sodium/client/world/WorldSlice.java:368-375 | Asks only the biome cache of the block's own slot, with key `(x, relY >> 4, z)`, and keeps the slice valid. |
| WorldSlices.WorldSlice.GetBlockTint | src/main/java/me/jellysquid/mods/sodium/client/world/WorldSlice.java:309-326 | Returns the resolver's blended colour and remembers the resolver and its cache in the memo. A cache is created and added only when the resolver is absent from the map; otherwise the map is unchanged. The snapshot state is unchanged, and the memo stays coherent (`Valid`). |
| LandPathNodes.BlockPathTypeRaw | src/main/java/me/jellysquid/mods/sodium/mixin/ai/pathing/LandPathNodeMakerMixin.java:31-51 | A cached type other than OPEN is returned unchanged. The result is OPEN exactly when the cached type is OPEN and the block is pathfindable for land. |
| LandPathNodes.BlockPathTypeRawRefinesCache | src/main/java/me/jellysquid/mods/sodium/mixin/ai/pathing/LandPathNodeMakerMixin.java:37-50 | The result differs from the cached type exactly for a cached OPEN that is not pathfindable, and then it is BLOCKED. |
| LandPathNodes.CellRoundTrip | src/main/java/me/jellysquid/mods/sodium/mixin/ai/pathing/LandPathNodeMakerMixin.java:90-92 | The 27 offsets in [-1,1]³ are numbered y-major, then z, then x: decoding an offset's number gives back the offset. |
| LandPathNodes.CellOrder | src/main/java/me/jellysquid/mods/sodium/mixin/ai/pathing/LandPathNodeMakerMixin.java:90-92 | A later position has a later offset in y-outer, z, x-inner loop order. |
| LandPathNodes.SkippedExactly | src/main/java/me/jellysquid/mods/sodium/mixin/ai/pathing/LandPathNodeMakerMixin.java:93-95 | The skipped positions are exactly the offsets with `x2 == 0 && z2 == 0`: the block itself and the blocks straight above and below. |
| LandPathNodes.VisitsTwentyFour | src/main/java/me/jellysquid/mods/sodium/mixin/ai/pathing/LandPathNodeMakerMixin.java:90-97 | Exactly 24 positions are visited. |
| LandPathNodes.VisitOrderContents | src/main/java/me/jellysquid/mods/sodium/mixin/ai/pathing/LandPathNodeMakerMixin.java:90-97 | A position is visited exactly when it is not skipped. |
| LandPathNodes.VisitedBeforeIsPrefix | src/main/java/me/jellysquid/mods/sodium/mixin/ai/pathing/LandPathNodeMakerMixin.java:90-97 | The positions visited up to and including a non-skipped position k are a prefix of the visit order, and they end with k. |
| LandPathNodes.VisitedAll | src/main/java/me/jellysquid/mods/sodium/mixin/ai/pathing/LandPathNodeMakerMixin.java:90-97 | A scan that runs to the end has visited the whole visit order: 24 positions, the last of them the final offset (1, 1, 1). |
| LandPathNodes.ChunkSectionOf | src/main/java/me/jellysquid/mods/sodium/mixin/ai/pathing/LandPathNodeMakerMixin.java:70-79 | The cached section is null outside the build height and when there is no chunk. Otherwise it is section `y >> 4` of chunk `(x >> 4, z >> 4)`. |
| LandPathNodes.StopIndex | src/main/java/me/jellysquid/mods/sodium/mixin/ai/pathing/LandPathNodeMakerMixin.java:90-121 | The first stopping position from k on is a visited, non-air position whose neighbour type is not OPEN, or 27 when there is none. |
| LandPathNodes.StopIndexIsFirst | src/main/java/me/jellysquid/mods/sodium/mixin/ai/pathing/LandPathNodeMakerMixin.java:90-121 | No position before the stop index stops the scan. |
| LandPathNodes.ScanFirstMatch | src/main/java/me/jellysquid/mods/sodium/mixin/ai/pathing/LandPathNodeMakerMixin.java:110-118 | The scan returns the neighbour type of the first visited non-air block whose neighbour type is not OPEN. |
| LandPathNodes.ScanNoMatch | src/main/java/me/jellysquid/mods/sodium/mixin/ai/pathing/LandPathNodeMakerMixin.java:123 | When no visited block qualifies, the scan returns the input type unchanged. |
| LandPathNodes.ScanIsFirstStop | src/main/java/me/jellysquid/mods/sodium/mixin/ai/pathing/LandPathNodeMakerMixin.java:89-123 | The scan's answer is the first stop's neighbour type when there is a stop, and the input type otherwise. |
| LandPathNodes.ScanIgnoresAirTypes | src/main/java/me/jellysquid/mods/sodium/mixin/ai/pathing/LandPathNodeMakerMixin.java:109-114 | An air block's neighbour type is never consulted: rule sets that agree on air and on non-air neighbour types give the same scan. |
| LandPathNodes.LastVisited | src/main/java/me/jellysquid/mods/sodium/mixin/ai/pathing/LandPathNodeMakerMixin.java:93-118 | The last position visited is a non-skipped one: the stop, or the final offset (1, 1, 1). |
| LandPathNodes.MutablePos.Set | src/main/java/me/jellysquid/mods/sodium/mixin/ai/pathing/LandPathNodeMakerMixin.java:97 | `pos.set(x, y, z)` leaves `pos` at (x, y, z). |
| LandPathNodes.VisitNeighbour | src/main/java/me/jellysquid/mods/sodium/mixin/ai/pathing/LandPathNodeMakerMixin.java:97-118 | Moves `pos` to the neighbour and reads through the cached section at `p & 15` when there is one, else through the reader. It reports a danger exactly when the block is not air and its neighbour type is not OPEN, and then answers that type. |
| LandPathNodes.ScanNeighbours | src/main/java/me/jellysquid/mods/sodium/mixin/ai/pathing/LandPathNodeMakerMixin.java:89-123 | The y-z-x loops return the first-stop answer of the specification scan and leave `pos` at the last neighbour they visited. Their ghost trace of visited positions is the visit order up to that last neighbour. |
| LandPathNodes.ScanRow | src/main/java/me/jellysquid/mods/sodium/mixin/ai/pathing/LandPathNodeMakerMixin.java:92-119 | The innermost x loop for one (y2, z2) skips the column offset. On a danger it returns the scan's answer and leaves `pos` at the stop. Otherwise it leaves `pos` at offset (1, y2, z2), and no position up to the row's end stops the scan. |
| LandPathNodes.CheckNeighbourBlocks | src/main/java/me/jellysquid/mods/sodium/mixin/ai/pathing/LandPathNodeMakerMixin.java:58-124 | Returns the input type, with `pos` untouched, when the same-chunk branch finds a null, empty or safe section. Otherwise it returns the scan through the cached section (null outside that branch), with `pos` left at the last neighbour visited and not restored. Its ghost trace of visited positions is empty on the fast exit, and otherwise the visit order up to the last neighbour. |

## Left out

- `EntityMixin` and `ThreadedAnvilChunkStorageMixin` are not part of this model. They rely on double-precision boxes, distances and helpers that do not appear in the code.
- `unpackBlockData` is modelled by its only live branch, `unpackBlockDataR`. The other branch, `unpackBlockDataZ`, is commented out, and so are the other commented-out loops.
- `getBlockStateRelative` and `blockStatesArrays` are left out. The per-section arrays are allocated but never filled with blocks, because `unpackBlockDataR` ignores its `states` argument and writes the dense array. So no fidelity holds for `getBlockStateRelative`.
- The `getBlockState(BlockPos)` and `getBlockEntity(BlockPos)` overloads are left out, because they forward to the coordinate versions.
- Other trivial members are left out because they only forward or return constants: `getFluidState`, `getShade`, `getLightEngine`, `getHeight`, `getMinBuildHeight`, `getOrigin`, `getRawBrightness` (always 0) and `canSeeSky` (always false).
- `Mth.roundToward`, `Mth.smallestEncompassingPowerOfTwo` and `Integer.bitCount` are not modelled. Their results at these arguments are the constants 1, 4 and 2, and `ConstantsAgree` checks the equations between the constants.
- 32-bit overflow is not modelled: integers are unbounded. World coordinates are far from the Java `int` range, and the index operands stay below 8000.
- Threading, object pooling and the reference counting of `ClonedChunkSectionCache` are left out as concurrency and resource management.
- The internals of `ClonedChunkSection`, `BiomeCache` and `BiomeColorCache` are abstracted, because they are not part of this model:
  - a clone's lookups are opaque functions;
  - a `BiomeCache` is a memo table over the biome computation it is handed;
  - `getBlendedColor` is a function of the resolver and the position.
- Palette and bit-storage decoding inside `ClonedChunkSection.getBlockState` is part of the opaque lookup.
- SliceContext.Prepare requires that the origin's section y lies within the chunk's section array. Outside it, Java's `chunk.getSections()[origin.getY()]` throws `ArrayIndexOutOfBoundsException`; that error path is not modelled.
- WorldSlices.WorldSlice.GetBlockState requires a context and a block inside the volume. Outside it, Java may read another block's entry or throw; that is not modelled.
- WorldSlices.WorldSlice.GetBlockEntity requires a context and a block inside the section table. Outside it, Java may read a null or unrelated slot; that is not modelled.
- WorldSlices.WorldSlice.GetBrightness requires a context and a block inside the section table, for the same reason.
- WorldSlices.WorldSlice.GetBiome requires a context and a block inside the section table, for the same reason.
- WorldSlices.WorldSlice.GetNoiseBiome requires the slot coordinates `x2, z2` to lie in [0,4). Outside that range Java's `getLocalChunkIndex` mixes the bits of other slots or goes out of bounds, which is not modelled.
- WorldSlices.WorldSlice.CopyData requires `Allocated()`, which the constructor establishes and no method breaks. It takes a well-formed context, which `SliceContext.PreparedContextIsValid` provides for a pool that clones the section it is asked for. A context whose clones sit at other positions is not covered.
- WorldSlices.WorldSlice.CopyData delegates its slot loop to `UnpackSections`, which is a split of the one Java method, not a separate operation.
- LandPathNodes.CheckNeighbourBlocks delegates its outer loops to `ScanNeighbours`, the innermost loop to `ScanRow` and the loop body to `VisitNeighbour`. These are splits of the one Java method.
- LandPathNodes.CheckNeighbourBlocks requires that a chunk the collision reader returns has 16 sections, the build height (0 to 255) of the game version this code targets. The indexing `getSections()[y >> 4]` is then in bounds. A chunk with a different section count is not modelled.
- `PathNodeCache`, `WorldHelper.areNeighborsWithinSameChunk`, `BlockState.isAir`, `isPathfindable` and the reader's block and chunk lookups are opaque functions. `world instanceof ICollisionReader` is a flag of the reader.
- `PathNodeType` constants other than OPEN and BLOCKED are kept apart only by their ordinal, because this code never names them.
- `getBlockTint` compares resolvers by reference. The model compares them as values of an opaque type, which is the same relation for the identity-keyed map.
