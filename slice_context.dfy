/** The inputs of a world slice and the static `prepare` step of WorldSlice.java:
    the cloned sections it reads, the live world it consults, the bounding volume
    around an origin section, the 64-slot section table, and the arithmetic by
    which a block of the volume finds the section that holds it. */
module SliceContext {
  import opened GameTypes
  import opened SliceGeometry

  /** A `ClonedChunkSection`: an immutable copy of one section. Its lookups are
      opaque; they take section-local coordinates in [0,16). */
  datatype ClonedSection = ClonedSection(
    position: SectionPos,
    blockState: (int, int, int) -> BlockState,
    blockEntity: (int, int, int) -> Option<BlockEntity>,
    lightLevel: (LightLayer, int, int, int) -> int,
    biomeForNoiseGen: (int, int, int) -> Biome)

  /** The live world as this core reads it: the section array of a chunk column
      (`world.getChunk(x, z).getSections()`, a slot may be null) and the
      fallback biome lookup for places no cloned section covers. */
  datatype World = World(
    chunkSections: (int, int) -> seq<Option<ChunkSection>>,
    uncachedNoiseBiome: (int, int, int) -> Biome)

  /** `ClonedChunkSectionCache.acquire(x, y, z)`, taken as a function of the
      section coordinates. */
  type Acquire = (int, int, int) -> ClonedSection

  /** A pool that clones the section it is asked for. */
  ghost predicate AcquiresRequestedSection(acquire: Acquire)
  {
    forall cx, cy, cz :: acquire(cx, cy, cz).position == SectionPos(cx, cy, cz)
  }

  /** A `ChunkRenderContext`: the origin section, the section table and the volume. */
  datatype RenderContext = RenderContext(origin: SectionPos, sections: seq<Option<ClonedSection>>, volume: Box)

  function Max(a: int, b: int): int { if a >= b then a else b }
  function Min(a: int, b: int): int { if a <= b then a else b }

  // ---- The bounding volume --------------------------------------------------

  /** The origin section's blocks widened by NEIGHBOR_BLOCK_RADIUS on every side. */
  function SliceVolume(origin: SectionPos): (box: Box)
    ensures IsSliceBox(box)
  {
    Box(origin.MinBlockX() - NeighborBlockRadius,
        origin.MinBlockY() - NeighborBlockRadius,
        origin.MinBlockZ() - NeighborBlockRadius,
        origin.MaxBlockX() + NeighborBlockRadius,
        origin.MaxBlockY() + NeighborBlockRadius,
        origin.MaxBlockZ() + NeighborBlockRadius)
  }

  /** The volume strictly contains the origin section: every block of the section
      and its two neighbouring planes on every side are inside it. */
  lemma VolumeContainsOrigin(origin: SectionPos, x: int, y: int, z: int)
    requires origin.MinBlockX() - 2 <= x <= origin.MaxBlockX() + 2
    requires origin.MinBlockY() - 2 <= y <= origin.MaxBlockY() + 2
    requires origin.MinBlockZ() - 2 <= z <= origin.MaxBlockZ() + 2
    ensures InBox(SliceVolume(origin), x, y, z)
  {
  }

  // ---- The section table ----------------------------------------------------

  /** The section coordinates a slot of the table stands for, for an origin:
      slot (a, b, c) holds section origin + (a, b, c) - 1. */
  function SlotSection(origin: SectionPos, i: nat): SectionPos
  {
    SectionPos(origin.x - NeighborChunkRadius + SlotX(i),
               origin.y - NeighborChunkRadius + SlotY(i),
               origin.z - NeighborChunkRadius + SlotZ(i))
  }

  /** The table `prepare` builds: each in-use slot holds the acquired clone of its
      section, every other slot is null. */
  function PreparedSections(origin: SectionPos, acquire: Acquire): (s: seq<Option<ClonedSection>>)
    ensures |s| == SectionTableArraySize
  {
    seq(SectionTableArraySize, (i: int) requires 0 <= i < SectionTableArraySize =>
      if InUseSlot(i) then
        var p := SlotSection(origin, i);
        Some(acquire(p.x, p.y, p.z))
      else None)
  }

  /** Each of the 27 sections within radius 1 of the origin is stored at slot
      getLocalSectionIndex(cx - minX, cy - minY, cz - minZ). */
  lemma PreparedSlotHoldsAcquired(origin: SectionPos, acquire: Acquire, cx: int, cy: int, cz: int)
    requires origin.x - 1 <= cx <= origin.x + 1
    requires origin.y - 1 <= cy <= origin.y + 1
    requires origin.z - 1 <= cz <= origin.z + 1
    ensures PreparedSections(origin, acquire)[LocalSectionIndex(cx - origin.x + 1, cy - origin.y + 1, cz - origin.z + 1)]
            == Some(acquire(cx, cy, cz))
  {
    var i := LocalSectionIndex(cx - origin.x + 1, cy - origin.y + 1, cz - origin.z + 1);
    SectionIndexRoundTrip(cx - origin.x + 1, cy - origin.y + 1, cz - origin.z + 1);
    assert InUseSlot(i) && SlotSection(origin, i) == SectionPos(cx, cy, cz);
  }

  /** Exactly the in-use slots are filled; the other 37 stay null. */
  lemma PreparedSlotsFilled(origin: SectionPos, acquire: Acquire, i: nat)
    requires i < SectionTableArraySize
    ensures PreparedSections(origin, acquire)[i].Some? <==> InUseSlot(i)
  {
  }

  /** Slot progress of prepare's x-z-y loop nest: slot (a, b, c) is filled once
      the nest has passed (x, z, y) = (a, c, b). */
  predicate PrepareFilled(a: int, b: int, c: int, ax: int, az: int, ay: int)
  {
    a < ax || (a == ax && (c < az || (c == az && b < ay)))
  }

  /** Slot (a, b, c) of the table once the loop nest has reached (ax, az, ay). */
  function PartialSlot(origin: SectionPos, acquire: Acquire, a: int, b: int, c: int, ax: int, az: int, ay: int): Option<ClonedSection>
  {
    if a < 3 && b < 3 && c < 3 && PrepareFilled(a, b, c, ax, az, ay) then
      Some(acquire(origin.x - 1 + a, origin.y - 1 + b, origin.z - 1 + c))
    else None
  }

  ghost predicate PartialTable(s: seq<Option<ClonedSection>>, origin: SectionPos, acquire: Acquire, ax: int, az: int, ay: int)
  {
    |s| == SectionTableArraySize &&
    forall a: nat, b: nat, c: nat :: a < 4 && b < 4 && c < 4 ==>
      s[LocalSectionIndex(a, b, c)] == PartialSlot(origin, acquire, a, b, c, ax, az, ay)
  }

  /** One slot after a store of the inner loop: the stored slot becomes filled,
      every other slot keeps its value, which the advance of the loop leaves
      unchanged. */
  lemma PrepareStepAt(old_: Option<ClonedSection>, new_: Option<ClonedSection>, origin: SectionPos, acquire: Acquire,
                      ax: nat, az: nat, ay: nat, a: nat, b: nat, c: nat)
    requires ax < 3 && az < 3 && ay < 3 && a < 4 && b < 4 && c < 4
    requires old_ == PartialSlot(origin, acquire, a, b, c, ax, az, ay)
    requires new_ == if LocalSectionIndex(a, b, c) == LocalSectionIndex(ax, ay, az)
                     then Some(acquire(origin.x - 1 + ax, origin.y - 1 + ay, origin.z - 1 + az))
                     else old_
    ensures new_ == PartialSlot(origin, acquire, a, b, c, ax, az, ay + 1)
  {
    if LocalSectionIndex(a, b, c) == LocalSectionIndex(ax, ay, az) {
      LocalSectionIndexInjective(a, b, c, ax, ay, az);
    }
  }

  /** One store of the inner loop advances the table by one slot. */
  lemma PrepareStep(s: seq<Option<ClonedSection>>, s': seq<Option<ClonedSection>>, origin: SectionPos, acquire: Acquire,
                    ax: nat, az: nat, ay: nat, cx: int, cy: int, cz: int)
    requires ax < 3 && az < 3 && ay < 3
    requires cx == origin.x - 1 + ax && cy == origin.y - 1 + ay && cz == origin.z - 1 + az
    requires PartialTable(s, origin, acquire, ax, az, ay)
    requires s' == s[LocalSectionIndex(ax, ay, az) := Some(acquire(cx, cy, cz))]
    ensures PartialTable(s', origin, acquire, ax, az, ay + 1)
  {
    forall a: nat, b: nat, c: nat | a < 4 && b < 4 && c < 4
      ensures s'[LocalSectionIndex(a, b, c)] == PartialSlot(origin, acquire, a, b, c, ax, az, ay + 1)
    {
      var k := LocalSectionIndex(a, b, c);
      PrepareStepAt(s[k], s'[k], origin, acquire, ax, az, ay, a, b, c);
    }
  }

  lemma PreparedAt(origin: SectionPos, acquire: Acquire, i: nat)
    requires i < SectionTableArraySize
    ensures PreparedSections(origin, acquire)[i]
            == if InUseSlot(i) then Some(acquire(origin.x - 1 + SlotX(i), origin.y - 1 + SlotY(i), origin.z - 1 + SlotZ(i))) else None
  {
    var q := SlotSection(origin, i);
    assert PreparedSections(origin, acquire)[i] == if InUseSlot(i) then Some(acquire(q.x, q.y, q.z)) else None;
    assert q.x == origin.x - 1 + SlotX(i);
  }

  lemma PartialSlotFinal(origin: SectionPos, acquire: Acquire, a: int, b: int, c: int)
    ensures PartialSlot(origin, acquire, a, b, c, 3, 0, 0)
            == if a < 3 && b < 3 && c < 3 then Some(acquire(origin.x - 1 + a, origin.y - 1 + b, origin.z - 1 + c)) else None
  {
  }

  /** Past the last slot, one slot of the partial table is the prepared one. */
  lemma PrepareCompleteAt(v: Option<ClonedSection>, origin: SectionPos, acquire: Acquire, i: nat)
    requires i < SectionTableArraySize
    requires v == PartialSlot(origin, acquire, SlotX(i), SlotY(i), SlotZ(i), 3, 0, 0)
    ensures v == PreparedSections(origin, acquire)[i]
  {
    var a, b, c := SlotX(i), SlotY(i), SlotZ(i);
    var w := Some(acquire(origin.x - 1 + a, origin.y - 1 + b, origin.z - 1 + c));
    assert PreparedSections(origin, acquire)[i] == if InUseSlot(i) then w else None by {
      PreparedAt(origin, acquire, i);
    }
    assert v == if a < 3 && b < 3 && c < 3 then w else None by {
      PartialSlotFinal(origin, acquire, a, b, c);
    }
    assert InUseSlot(i) <==> (a < 3 && b < 3 && c < 3) by {
      SlotRoundTrip(i);
    }
  }

  /** Past the last slot, the partial table is the prepared one. */
  lemma PrepareComplete(s: seq<Option<ClonedSection>>, origin: SectionPos, acquire: Acquire)
    requires PartialTable(s, origin, acquire, 3, 0, 0)
    ensures s == PreparedSections(origin, acquire)
  {
    var p := PreparedSections(origin, acquire);
    forall i: nat | i < SectionTableArraySize
      ensures s[i] == p[i]
    {
      SlotRoundTrip(i);
      PrepareCompleteAt(s[i], origin, acquire, i);
    }
  }

  /** Passing the end of an inner loop is the start of the next outer step. */
  lemma PrepareCarry(s: seq<Option<ClonedSection>>, origin: SectionPos, acquire: Acquire, ax: int, az: int)
    ensures PartialTable(s, origin, acquire, ax, az, 3) <==> PartialTable(s, origin, acquire, ax, az + 1, 0)
    ensures PartialTable(s, origin, acquire, ax, 3, 0) <==> PartialTable(s, origin, acquire, ax + 1, 0, 0)
  {
  }

  /** `prepare(world, origin, sectionCache)`: null when the origin section is
      absent or empty; otherwise a context whose volume is the origin section
      widened by 2 and whose table holds acquire(cx, cy, cz) for the 27 sections
      within radius 1 (each at its own slot) and null elsewhere. */
  method Prepare(world: World, origin: SectionPos, acquire: Acquire) returns (r: Option<RenderContext>)
    requires 0 <= origin.y < |world.chunkSections(origin.x, origin.z)|
    ensures r.None? <==> SectionIsEmpty(world.chunkSections(origin.x, origin.z)[origin.y])
    ensures r.Some? ==> r.value.origin == origin && r.value.volume == SliceVolume(origin)
    ensures r.Some? ==> r.value.sections == PreparedSections(origin, acquire)
  {
    var chunk := world.chunkSections(origin.x, origin.z);
    var section := chunk[origin.y];
    if SectionIsEmpty(section) {
      return None;
    }

    var volume := Box(origin.MinBlockX() - NeighborBlockRadius,
                      origin.MinBlockY() - NeighborBlockRadius,
                      origin.MinBlockZ() - NeighborBlockRadius,
                      origin.MaxBlockX() + NeighborBlockRadius,
                      origin.MaxBlockY() + NeighborBlockRadius,
                      origin.MaxBlockZ() + NeighborBlockRadius);

    var minChunkX := origin.x - NeighborChunkRadius;
    var minChunkY := origin.y - NeighborChunkRadius;
    var minChunkZ := origin.z - NeighborChunkRadius;
    var maxChunkX := origin.x + NeighborChunkRadius;
    var maxChunkY := origin.y + NeighborChunkRadius;
    var maxChunkZ := origin.z + NeighborChunkRadius;

    var sections := new Option<ClonedSection>[SectionTableArraySize](_ => None);

    for chunkX := minChunkX to maxChunkX + 1
      invariant PartialTable(sections[..], origin, acquire, chunkX - minChunkX, 0, 0)
    {
      for chunkZ := minChunkZ to maxChunkZ + 1
        invariant PartialTable(sections[..], origin, acquire, chunkX - minChunkX, chunkZ - minChunkZ, 0)
      {
        for chunkY := minChunkY to maxChunkY + 1
          invariant PartialTable(sections[..], origin, acquire, chunkX - minChunkX, chunkZ - minChunkZ, chunkY - minChunkY)
        {
          ghost var before := sections[..];
          sections[LocalSectionIndex(chunkX - minChunkX, chunkY - minChunkY, chunkZ - minChunkZ)] :=
            Some(acquire(chunkX, chunkY, chunkZ));
          PrepareStep(before, sections[..], origin, acquire, chunkX - minChunkX, chunkZ - minChunkZ, chunkY - minChunkY,
                      chunkX, chunkY, chunkZ);
        }
        PrepareCarry(sections[..], origin, acquire, chunkX - minChunkX, chunkZ - minChunkZ);
      }
      PrepareCarry(sections[..], origin, acquire, chunkX - minChunkX, 3);
    }

    PrepareComplete(sections[..], origin, acquire);
    return Some(RenderContext(origin, sections[..], volume));
  }

  // ---- Well-formed contexts -------------------------------------------------

  /** What a slice needs of a context: a 64-slot table whose in-use slots all hold
      the clone of the section the slot stands for and whose other slots are null,
      and the volume of the origin. */
  ghost predicate ValidContext(ctx: RenderContext)
  {
    && |ctx.sections| == SectionTableArraySize
    && ctx.volume == SliceVolume(ctx.origin)
    && (forall i: nat :: InUseSlot(i) ==> SlotHolds(ctx, i))
    && (forall i: nat :: i < SectionTableArraySize && !InUseSlot(i) ==> SlotIsNull(ctx, i))
  }

  /** Slot `i` of the context's table holds the clone of the section it stands for. */
  ghost predicate SlotHolds(ctx: RenderContext, i: nat)
  {
    i < |ctx.sections| && ctx.sections[i].Some? && ctx.sections[i].value.position == SlotSection(ctx.origin, i)
  }

  /** Slot `i` of the context's table is null. */
  ghost predicate SlotIsNull(ctx: RenderContext, i: nat)
  {
    i < |ctx.sections| && ctx.sections[i].None?
  }

  /** A context that prepare returns is well formed when the pool clones the
      sections it is asked for. */
  lemma PreparedContextIsValid(origin: SectionPos, acquire: Acquire)
    requires AcquiresRequestedSection(acquire)
    ensures ValidContext(RenderContext(origin, PreparedSections(origin, acquire), SliceVolume(origin)))
  {
  }

  // ---- Finding the section of a block ---------------------------------------

  /** The slot coordinates (a, b, c) of the section holding block (x, y, z),
      relative to the lowest section of the table. */
  function OwnerRelX(origin: SectionPos, x: int): int { x / 16 - (origin.x - NeighborChunkRadius) }
  function OwnerRelY(origin: SectionPos, y: int): int { y / 16 - (origin.y - NeighborChunkRadius) }
  function OwnerRelZ(origin: SectionPos, z: int): int { z / 16 - (origin.z - NeighborChunkRadius) }

  /** The world coordinate of the first block of the table: `(origin - 1) << 4`. */
  function BaseOf(o: int): int { (o - NeighborChunkRadius) * 16 }

  /** The blocks the section table covers: the 48 blocks per axis of the 3x3x3
      sections around the origin, starting at the base `(origin - 1) << 4`. */
  predicate InTable(origin: SectionPos, x: int, y: int, z: int)
  {
    && BaseOf(origin.x) <= x < BaseOf(origin.x) + SectionLength * SectionBlockLength
    && BaseOf(origin.y) <= y < BaseOf(origin.y) + SectionLength * SectionBlockLength
    && BaseOf(origin.z) <= z < BaseOf(origin.z) + SectionLength * SectionBlockLength
  }

  /** The volume lies inside the table. */
  lemma VolumeInTable(origin: SectionPos, x: int, y: int, z: int)
    requires InBox(SliceVolume(origin), x, y, z)
    ensures InTable(origin, x, y, z)
  {
  }

  /** For a coordinate of the table, the query arithmetic `rel = c - base`,
      `rel >> 4`, `rel & 15` finds the slot coordinate of the section holding the
      block (0, 1 or 2) and the block's own coordinate within that section. */
  lemma RelativeAxis(o: int, c: int)
    requires BaseOf(o) <= c < BaseOf(o) + SectionLength * SectionBlockLength
    ensures 0 <= (c - BaseOf(o)) / 16 < SectionLength
    ensures (c - BaseOf(o)) / 16 == c / 16 - (o - NeighborChunkRadius)
    ensures (c - BaseOf(o)) % 16 == c % 16
  {
  }

  /** The slot of the section holding block (x, y, z) of the table. */
  function OwnerSlot(origin: SectionPos, x: int, y: int, z: int): (i: nat)
    requires InTable(origin, x, y, z)
    ensures InUseSlot(i)
    ensures SlotSection(origin, i) == SectionOf(BlockPos(x, y, z))
  {
    RelativeAxis(origin.x, x);
    RelativeAxis(origin.y, y);
    RelativeAxis(origin.z, z);
    SectionIndexRoundTrip(OwnerRelX(origin, x), OwnerRelY(origin, y), OwnerRelZ(origin, z));
    LocalSectionIndex(OwnerRelX(origin, x), OwnerRelY(origin, y), OwnerRelZ(origin, z))
  }

  /** The clone of the section that holds block (x, y, z) of the table. */
  ghost function OwnerSection(ctx: RenderContext, x: int, y: int, z: int): (s: ClonedSection)
    requires ValidContext(ctx) && InTable(ctx.origin, x, y, z)
    ensures s.position == SectionOf(BlockPos(x, y, z))
  {
    ctx.sections[OwnerSlot(ctx.origin, x, y, z)].value
  }

  /** The clone in slot (a, b, c) of a well-formed table: the section at
      `origin - 1 + (a, b, c)`. */
  ghost function TableSection(ctx: RenderContext, a: nat, b: nat, c: nat): (s: ClonedSection)
    requires ValidContext(ctx) && a < SectionLength && b < SectionLength && c < SectionLength
    ensures s.position == SectionPos(ctx.origin.x - 1 + a, ctx.origin.y - 1 + b, ctx.origin.z - 1 + c)
  {
    SectionIndexRoundTrip(a, b, c);
    ctx.sections[LocalSectionIndex(a, b, c)].value
  }

  /** The lookup of getBlockEntity, getBrightness and getBiome: with `rel = c -
      base` on each axis, slot `(relX >> 4, relY >> 4, relZ >> 4)` is the slot of
      the section that holds the block, and `rel & 15` is the block's coordinate
      within that section. */
  lemma RelativeSlot(o: SectionPos, x: int, y: int, z: int, relX: int, relY: int, relZ: int)
    requires InTable(o, x, y, z)
    requires relX == x - BaseOf(o.x) && relY == y - BaseOf(o.y) && relZ == z - BaseOf(o.z)
    ensures 0 <= relX / 16 < SectionLength && 0 <= relY / 16 < SectionLength && 0 <= relZ / 16 < SectionLength
    ensures LocalSectionIndex(relX / 16, relY / 16, relZ / 16) == OwnerSlot(o, x, y, z)
    ensures relY / 16 == OwnerRelY(o, y)
    ensures relX % 16 == x % 16 && relY % 16 == y % 16 && relZ % 16 == z % 16
  {
    assert 0 <= relX / 16 < SectionLength && relX / 16 == OwnerRelX(o, x) && relX % 16 == x % 16 by { RelativeAxis(o.x, x); }
    assert 0 <= relY / 16 < SectionLength && relY / 16 == OwnerRelY(o, y) && relY % 16 == y % 16 by { RelativeAxis(o.y, y); }
    assert 0 <= relZ / 16 < SectionLength && relZ / 16 == OwnerRelZ(o, z) && relZ % 16 == z % 16 by { RelativeAxis(o.z, z); }
  }

  /** The slot of the section holding a block of the table is filled, with that
      section's clone. */
  lemma OwnerSlotFilled(ctx: RenderContext, x: int, y: int, z: int)
    requires ValidContext(ctx) && InTable(ctx.origin, x, y, z)
    ensures ctx.sections[OwnerSlot(ctx.origin, x, y, z)] == Some(OwnerSection(ctx, x, y, z))
  {
    assert SlotHolds(ctx, OwnerSlot(ctx.origin, x, y, z));
  }

  /** The lookup of getNoiseBiome: slot `(a, 0, c)` of the bottom layer holds
      the clone of its section when a and c are in use, and is null when either
      is the unused coordinate 3. */
  lemma BottomLayerLookup(ctx: RenderContext, a: nat, c: nat)
    requires ValidContext(ctx) && a < TableLength && c < TableLength
    ensures a < SectionLength && c < SectionLength ==>
              ctx.sections[LocalChunkIndex(a, c)] == Some(TableSection(ctx, a, 0, c))
    ensures !(a < SectionLength && c < SectionLength) ==> ctx.sections[LocalChunkIndex(a, c)].None?
  {
    ChunkIndexIsBottomLayer(a, c);
    SectionIndexRoundTrip(a, 0, c);
    if a < SectionLength && c < SectionLength {
      assert SlotHolds(ctx, LocalChunkIndex(a, c));
    } else {
      assert SlotIsNull(ctx, LocalChunkIndex(a, c));
    }
  }

  /** The block that the snapshot must hold at (x, y, z) of the volume: what the
      clone of the section containing it reports at the block's local coordinates. */
  ghost function OwnerBlock(ctx: RenderContext, x: int, y: int, z: int): BlockState
    requires ValidContext(ctx) && InBox(ctx.volume, x, y, z)
  {
    VolumeInTable(ctx.origin, x, y, z);
    OwnerSection(ctx, x, y, z).blockState(x % 16, y % 16, z % 16)
  }

  // ---- Clipping a section against the volume (unpackBlockDataR) -------------

  /** unpackBlockDataR's loop bounds: `max(box.min, pos.minBlock)` and
      `min(box.max, (pos + 1) << 4)`, both inclusive. The upper bound is the first
      block of the NEXT section, so a section also writes one plane beyond its end. */
  function ClipMinX(box: Box, pos: SectionPos): int { Max(box.minX, pos.MinBlockX()) }
  function ClipMaxX(box: Box, pos: SectionPos): int { Min(box.maxX, (pos.x + 1) * 16) }
  function ClipMinY(box: Box, pos: SectionPos): int { Max(box.minY, pos.MinBlockY()) }
  function ClipMaxY(box: Box, pos: SectionPos): int { Min(box.maxY, (pos.y + 1) * 16) }
  function ClipMinZ(box: Box, pos: SectionPos): int { Max(box.minZ, pos.MinBlockZ()) }
  function ClipMaxZ(box: Box, pos: SectionPos): int { Min(box.maxZ, (pos.z + 1) * 16) }

  /** The blocks unpackBlockDataR writes for a section at `pos`. */
  predicate InClip(box: Box, pos: SectionPos, x: int, y: int, z: int)
  {
    && ClipMinX(box, pos) <= x <= ClipMaxX(box, pos)
    && ClipMinY(box, pos) <= y <= ClipMaxY(box, pos)
    && ClipMinZ(box, pos) <= z <= ClipMaxZ(box, pos)
  }

  /** Every block a section writes lies in the box. */
  lemma ClipInsideBox(box: Box, pos: SectionPos, x: int, y: int, z: int)
    requires InClip(box, pos, x, y, z)
    ensures InBox(box, x, y, z)
  {
  }

  /** One axis of the clip of the section at slot coordinate `a`: a block it
      covers belongs to that section or to the next one; and every block of the
      volume that the section holds is covered. */
  lemma ClipAxis(o: int, a: int, c: int)
    requires 0 <= a < SectionLength
    ensures var lo := Max(o * 16 - 2, (o - 1 + a) * 16);
            var hi := Min(o * 16 + 17, (o - 1 + a + 1) * 16);
            && (lo <= c <= hi ==> a <= c / 16 - (o - 1) <= a + 1)
            && (o * 16 - 2 <= c <= o * 16 + 17 && c / 16 - (o - 1) == a ==> lo <= c <= hi)
  {
  }
}
