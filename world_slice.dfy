/** The world slice of WorldSlice.java: a reusable snapshot object that, per
    render task, copies the blocks around one origin section into a dense
    20x20x20 array and then answers block, block-entity, light, biome and tint
    queries from its copies without touching the live world. */
module WorldSlices {
  import opened GameTypes
  import opened SliceGeometry
  import opened SliceContext
  import opened CopyOrder

  /** A `BiomeCache`, one per section slot. Its internals are not part of this
      model; it is taken to be a memo table over the biome computation it is
      handed, which `reset` empties. */
  class BiomeCache {
    var memo: map<(int, int, int), Biome>

    /** The slot of the section table the cache was made for. */
    ghost const slot: nat

    constructor(ghost slot: nat)
      ensures memo == map[] && this.slot == slot
    {
      memo := map[];
      this.slot := slot;
    }

    /** `reset()`: forgets every biome remembered for the previous snapshot. */
    method Reset()
      modifies this
      ensures memo == map[]
    {
      memo := map[];
    }

    /** `getBiome(source, x, sectionY, z)`: the remembered biome of the key, or
        the computed one, which is then remembered. */
    method GetBiome(x: int, sy: int, z: int, compute: (int, int, int) -> Biome) returns (b: Biome)
      modifies this
      ensures (x, sy, z) in old(memo) ==> b == old(memo)[(x, sy, z)]
      ensures (x, sy, z) !in old(memo) ==> b == compute(x, sy, z)
      ensures memo == old(memo)[(x, sy, z) := b]
    {
      if (x, sy, z) in memo {
        b := memo[(x, sy, z)];
      } else {
        b := compute(x, sy, z);
        memo := memo[(x, sy, z) := b];
      }
    }
  }

  /** A `BiomeColorCache`: the blended colours of one colour resolver. How it
      blends is not part of this model; its colour is a function of the resolver
      and the position, handed in as `blend`. */
  class BiomeColorCache {
    const resolver: ColorResolver

    constructor(resolver: ColorResolver)
      ensures this.resolver == resolver
    {
      this.resolver := resolver;
    }

    /** `getBlendedColor(pos)`. */
    function BlendedColor(pos: BlockPos, blend: (ColorResolver, BlockPos) -> int): int
    {
      blend(resolver, pos)
    }
  }

  class WorldSlice {
    /** The world the slice copies from. */
    const world: World

    /** The dense snapshot: BLOCK_COUNT block states, reused across snapshots. */
    const blockStates: array<BlockState>

    /** One biome cache per in-use slot of the section table. */
    const biomeCaches: array<BiomeCache?>

    /** The biome caches the constructor allocated. */
    ghost const Caches: set<BiomeCache>

    /** The section table of the current context (read only). */
    var sections: seq<Option<ClonedSection>>

    /** The blend cache of each colour resolver seen since the last copyData. */
    var biomeColorCaches: map<ColorResolver, BiomeColorCache>

    /** The one-slot memo in front of biomeColorCaches. */
    var prevColorResolver: Option<ColorResolver>
    var prevColorCache: BiomeColorCache?

    /** The first block of the section table. */
    var baseX: int
    var baseY: int
    var baseZ: int

    var origin: Option<SectionPos>
    var context: Option<RenderContext>

    /** The tint memo is coherent: a remembered resolver is in the map with the
        remembered cache, and every cache in the map belongs to its key. */
    ghost predicate MemoValid()
      reads this
    {
      && (prevColorResolver.Some? ==>
            prevColorResolver.value in biomeColorCaches && prevColorCache == biomeColorCaches[prevColorResolver.value])
      && (prevColorResolver.None? ==> prevColorCache == null)
      && (forall r :: r in biomeColorCaches ==> biomeColorCaches[r].resolver == r)
    }

    /** The slice holds the snapshot of `ctx`: its table, its origin and base, and
        in the dense array, for every block of the volume, the block of the
        section that contains it. */
    ghost predicate Snapshot(ctx: RenderContext)
      requires blockStates.Length == BlockCount
      reads this, blockStates
    {
      && ValidContext(ctx)
      && sections == ctx.sections
      && origin == Some(ctx.origin)
      && baseX == BaseOf(ctx.origin.x) && baseY == BaseOf(ctx.origin.y) && baseZ == BaseOf(ctx.origin.z)
      && Filled(ctx, blockStates[..])
    }

    /** The arrays the constructor allocated: the dense array, and a table with
        one of the allocated biome caches in each in-use slot, the one made for
        that slot (so no two slots share a cache, see CachesDistinct), and no
        other allocated cache (see CachesInTable). */
    ghost predicate Allocated()
      reads biomeCaches
    {
      && blockStates.Length == BlockCount
      && biomeCaches.Length == SectionTableArraySize
      && (forall a: nat, b: nat, c: nat :: a < 3 && b < 3 && c < 3 ==>
           && biomeCaches[LocalSectionIndex(a, b, c)] != null
           && biomeCaches[LocalSectionIndex(a, b, c)] in Caches
           && biomeCaches[LocalSectionIndex(a, b, c)].slot == LocalSectionIndex(a, b, c))
      && |Caches| == 27
    }

    /** Caches holds nothing but the 27 caches of the table: each allocated
        cache sits in its own in-use slot. */
    lemma CachesInTable(k: BiomeCache)
      requires Allocated() && k in Caches
      ensures InUseSlot(k.slot) && biomeCaches[k.slot] == k
    {
      // Collect the table's caches in slot order; they are distinct, so all 27
      // of Caches are among them.
      ghost var t: set<BiomeCache> := {};
      for y := 0 to SectionLength
        invariant t <= Caches && |t| == 9 * y
        invariant forall j :: j in t ==> j.slot < 16 * y && InUseSlot(j.slot) && biomeCaches[j.slot] == j
      {
        for z := 0 to SectionLength
          invariant t <= Caches && |t| == 9 * y + 3 * z
          invariant forall j :: j in t ==> j.slot < 16 * y + 4 * z && InUseSlot(j.slot) && biomeCaches[j.slot] == j
        {
          for x := 0 to SectionLength
            invariant t <= Caches && |t| == 9 * y + 3 * z + x
            invariant forall j :: j in t ==> j.slot < 16 * y + 4 * z + x && InUseSlot(j.slot) && biomeCaches[j.slot] == j
          {
            var i := LocalSectionIndex(x, y, z);
            SectionIndexRoundTrip(x, y, z);
            var cache := biomeCaches[i];
            assert cache != null && cache in Caches && cache.slot == i;
            t := t + {cache};
          }
        }
      }
      assert Caches * t == t;
      assert |Caches - t| == 0;
      assert k !in Caches - t;
    }

    /** Each in-use slot has a biome cache of its own. */
    lemma CachesDistinct(a: nat, b: nat, c: nat, a': nat, b': nat, c': nat)
      requires Allocated()
      requires a < 3 && b < 3 && c < 3 && a' < 3 && b' < 3 && c' < 3
      requires (a, b, c) != (a', b', c')
      ensures biomeCaches[LocalSectionIndex(a, b, c)] != biomeCaches[LocalSectionIndex(a', b', c')]
    {
      if LocalSectionIndex(a, b, c) == LocalSectionIndex(a', b', c') {
        LocalSectionIndexInjective(a, b, c, a', b', c');
      }
    }

    /** The class invariant: the allocated arrays, a coherent tint memo, and
        either no snapshot (all slots null) or the full snapshot of the current
        context. */
    ghost predicate Valid()
      reads this, blockStates, biomeCaches
    {
      && Allocated()
      && |sections| == SectionTableArraySize
      && MemoValid()
      && (context.None? ==> origin.None? && forall i :: 0 <= i < |sections| ==> sections[i].None?)
      && (context.Some? ==> Snapshot(context.value))
    }

    /** `new WorldSlice(world)`: an 8000-block array, an all-null section table
        and a fresh biome cache in each of the 27 in-use slots. */
    constructor(world: World)
      ensures Valid()
      ensures this.world == world && context.None?
      ensures fresh(blockStates) && fresh(biomeCaches) && fresh(Caches)
      ensures forall c :: c in Caches ==> c.memo == map[]
      ensures biomeColorCaches == map[] && prevColorResolver.None?
    {
      var caches := new BiomeCache?[SectionTableArraySize](_ => null);
      ghost var made: set<BiomeCache> := {};
      for x := 0 to SectionLength
        invariant fresh(made) && |made| == 9 * x
        invariant forall c :: c in made ==> c.memo == map[]
        invariant forall a: nat, b: nat, c: nat :: a < 3 && b < 3 && c < 3 && SlotBefore(a, b, c, x, 0, 0) ==>
                    caches[LocalSectionIndex(a, b, c)] != null && caches[LocalSectionIndex(a, b, c)] in made
                    && caches[LocalSectionIndex(a, b, c)].slot == LocalSectionIndex(a, b, c)
      {
        for y := 0 to SectionLength
          invariant fresh(made) && |made| == 9 * x + 3 * y
          invariant forall c :: c in made ==> c.memo == map[]
          invariant forall a: nat, b: nat, c: nat :: a < 3 && b < 3 && c < 3 && SlotBefore(a, b, c, x, y, 0) ==>
                      caches[LocalSectionIndex(a, b, c)] != null && caches[LocalSectionIndex(a, b, c)] in made
                      && caches[LocalSectionIndex(a, b, c)].slot == LocalSectionIndex(a, b, c)
        {
          for z := 0 to SectionLength
            invariant fresh(made) && |made| == 9 * x + 3 * y + z
            invariant forall c :: c in made ==> c.memo == map[]
            invariant forall a: nat, b: nat, c: nat :: a < 3 && b < 3 && c < 3 && SlotBefore(a, b, c, x, y, z) ==>
                        caches[LocalSectionIndex(a, b, c)] != null && caches[LocalSectionIndex(a, b, c)] in made
                        && caches[LocalSectionIndex(a, b, c)].slot == LocalSectionIndex(a, b, c)
          {
            var i := LocalSectionIndex(x, y, z);
            var cache := new BiomeCache(i);
            caches[i] := cache;
            made := made + {cache};
          }
        }
      }
      this.world := world;
      blockStates := new BlockState[BlockCount];
      biomeCaches := caches;
      Caches := made;
      sections := seq(SectionTableArraySize, _ => None);
      biomeColorCaches := map[];
      prevColorResolver := None;
      prevColorCache := null;
      baseX, baseY, baseZ := 0, 0, 0;
      origin := None;
      context := None;
    }

    /** `copyData(context)`: takes over the context's origin and table, clears
        the tint memo, sets the base to `(origin - 1) << 4`, resets the 27 biome
        caches and unpacks the 27 sections into the dense array, so that every
        block of the volume holds the block of the section that contains it. */
    method CopyData(ctx: RenderContext)
      requires Allocated() && ValidContext(ctx)
      modifies this, blockStates, Caches
      ensures Valid()
      ensures context == Some(ctx) && origin == Some(ctx.origin) && sections == ctx.sections
      ensures baseX == BaseOf(ctx.origin.x) && baseY == BaseOf(ctx.origin.y) && baseZ == BaseOf(ctx.origin.z)
      ensures prevColorResolver.None? && prevColorCache == null && biomeColorCaches == map[]
      ensures forall a: nat, b: nat, c: nat :: a < 3 && b < 3 && c < 3 ==> biomeCaches[LocalSectionIndex(a, b, c)].memo == map[]
      ensures Filled(ctx, blockStates[..])
    {
      origin := Some(ctx.origin);
      sections := ctx.sections;
      context := Some(ctx);

      prevColorCache := null;
      prevColorResolver := None;

      biomeColorCaches := map[];

      baseX := (ctx.origin.x - NeighborChunkRadius) * 16;
      baseY := (ctx.origin.y - NeighborChunkRadius) * 16;
      baseZ := (ctx.origin.z - NeighborChunkRadius) * 16;

      UnpackSections(ctx);
    }

    /** The loop of copyData: resets the biome cache of each of the 27 in-use
        slots and unpacks its section, slot by slot in x-y-z order. */
    method UnpackSections(ctx: RenderContext)
      requires Allocated() && ValidContext(ctx) && sections == ctx.sections
      modifies blockStates, Caches
      ensures forall a: nat, b: nat, c: nat :: a < 3 && b < 3 && c < 3 ==> biomeCaches[LocalSectionIndex(a, b, c)].memo == map[]
      ensures Filled(ctx, blockStates[..])
    {
      CopyStart(ctx, blockStates[..]);
      ghost var cleared: set<BiomeCache> := {};
      for x := 0 to SectionLength
        modifies blockStates, Caches
        invariant Copied(ctx, blockStates[..], x, 0, 0)
        invariant forall c :: c in cleared ==> c.memo == map[]
        invariant forall a: nat, b: nat, c: nat :: a < 3 && b < 3 && c < 3 && SlotBefore(a, b, c, x, 0, 0) ==>
                    biomeCaches[LocalSectionIndex(a, b, c)] in cleared
      {
        for y := 0 to SectionLength
          modifies blockStates, Caches
          invariant Copied(ctx, blockStates[..], x, y, 0)
          invariant forall c :: c in cleared ==> c.memo == map[]
          invariant forall a: nat, b: nat, c: nat :: a < 3 && b < 3 && c < 3 && SlotBefore(a, b, c, x, y, 0) ==>
                      biomeCaches[LocalSectionIndex(a, b, c)] in cleared
        {
          for z := 0 to SectionLength
            modifies blockStates, Caches
            invariant Copied(ctx, blockStates[..], x, y, z)
            invariant forall c :: c in cleared ==> c.memo == map[]
            invariant forall a: nat, b: nat, c: nat :: a < 3 && b < 3 && c < 3 && SlotBefore(a, b, c, x, y, z) ==>
                        biomeCaches[LocalSectionIndex(a, b, c)] in cleared
          {
            var idx := LocalSectionIndex(x, y, z);

            biomeCaches[idx].Reset();
            cleared := cleared + {biomeCaches[idx]};

            SlotPosition(ctx, x, y, z);
            var section := sections[idx].value;
            ghost var before := blockStates[..];
            UnpackBlockDataR(section, ctx.volume);
            CopyStep(ctx, before, blockStates[..], x, y, z, section);
          }
          CopyCarry(ctx, blockStates[..], x, y);
        }
        CopyCarry(ctx, blockStates[..], x, 3);
      }
      CopyDone(ctx, blockStates[..]);
    }

    // ---- Queries ------------------------------------------------------------

    /** `getBlockState(x, y, z)`: the dense array at the block's index in the
        volume, which is the block of the section containing it. */
    function GetBlockState(x: int, y: int, z: int): (b: BlockState)
      requires Valid() && context.Some? && InBox(context.value.volume, x, y, z)
      reads this, blockStates, biomeCaches
      ensures b == OwnerBlock(context.value, x, y, z)
    {
      blockStates[BlockIndex(context.value.volume, x, y, z)]
    }

    /** `getBlockEntity(x, y, z)`: looked up in the clone that holds the block,
        at the block's coordinates within that section. */
    function GetBlockEntity(x: int, y: int, z: int): (e: Option<BlockEntity>)
      requires Valid() && context.Some? && InTable(context.value.origin, x, y, z)
      reads this, blockStates, biomeCaches
      ensures e == OwnerSection(context.value, x, y, z).blockEntity(x % 16, y % 16, z % 16)
    {
      var relX, relY, relZ := x - baseX, y - baseY, z - baseZ;
      RelativeSlot(context.value.origin, x, y, z, relX, relY, relZ);
      OwnerSlotFilled(context.value, x, y, z);
      sections[LocalSectionIndex(relX / 16, relY / 16, relZ / 16)].value.blockEntity(relX % 16, relY % 16, relZ % 16)
    }

    /** `getBrightness(type, pos)`: the light level the clone that holds the
        block reports, at the block's coordinates within that section. */
    function GetBrightness(layer: LightLayer, pos: BlockPos): (level: int)
      requires Valid() && context.Some? && InTable(context.value.origin, pos.x, pos.y, pos.z)
      reads this, blockStates, biomeCaches
      ensures level == OwnerSection(context.value, pos.x, pos.y, pos.z).lightLevel(layer, pos.x % 16, pos.y % 16, pos.z % 16)
    {
      var relX, relY, relZ := pos.x - baseX, pos.y - baseY, pos.z - baseZ;
      RelativeSlot(context.value.origin, pos.x, pos.y, pos.z, relX, relY, relZ);
      OwnerSlotFilled(context.value, pos.x, pos.y, pos.z);
      sections[LocalSectionIndex(relX / 16, relY / 16, relZ / 16)].value.lightLevel(layer, relX % 16, relY % 16, relZ % 16)
    }

    /** `getNoiseBiome(x, y, z)`, in biome coordinates (a quarter of a block
        coordinate): the chunk column `(x >> 2, z >> 2)` picks a slot of the
        table's bottom layer; its clone answers when there is one, the live
        world otherwise. The chunk columns one past the table (slot coordinate 3)
        are always null and so always fall back to the world. */
    function GetNoiseBiome(x: int, y: int, z: int): (b: Biome)
      requires Valid()
      requires 0 <= x / 4 - baseX / 16 < TableLength && 0 <= z / 4 - baseZ / 16 < TableLength
      reads this, blockStates, biomeCaches
      ensures context.None? ==> b == world.uncachedNoiseBiome(x, y, z)
      ensures context.Some? ==>
                var a, c := x / 4 - baseX / 16, z / 4 - baseZ / 16;
                b == if a < SectionLength && c < SectionLength
                     then TableSection(context.value, a, 0, c).biomeForNoiseGen(x, y, z)
                     else world.uncachedNoiseBiome(x, y, z)
    {
      var x2 := x / 4 - baseX / 16;
      var z2 := z / 4 - baseZ / 16;
      NoiseBiomeLookup(x, z, x2, z2);
      var s := sections[LocalChunkIndex(x2, z2)];
      if s.Some? then s.value.biomeForNoiseGen(x, y, z) else world.uncachedNoiseBiome(x, y, z)
    }

    /** The slot getNoiseBiome reads, with or without a snapshot: with a
        snapshot, `(x >> 2) - (baseX >> 4)` is the slot coordinate of chunk
        column `x >> 2` relative to the table, and likewise for z. */
    lemma NoiseBiomeLookup(x: int, z: int, x2: nat, z2: nat)
      requires |sections| == SectionTableArraySize
      requires context.None? ==> forall i :: 0 <= i < |sections| ==> sections[i].None?
      requires context.Some? ==>
                 && ValidContext(context.value) && sections == context.value.sections
                 && baseX == BaseOf(context.value.origin.x) && baseZ == BaseOf(context.value.origin.z)
      requires x2 < TableLength && z2 < TableLength
      requires x2 == x / 4 - baseX / 16 && z2 == z / 4 - baseZ / 16
      ensures context.Some? ==> x2 == x / 4 - (context.value.origin.x - 1) && z2 == z / 4 - (context.value.origin.z - 1)
      ensures context.Some? && x2 < SectionLength && z2 < SectionLength ==>
                sections[LocalChunkIndex(x2, z2)] == Some(TableSection(context.value, x2, 0, z2))
      ensures !(context.Some? && x2 < SectionLength && z2 < SectionLength) ==> sections[LocalChunkIndex(x2, z2)].None?
    {
      if context.Some? {
        BottomLayerLookup(context.value, x2, z2);
      }
    }

    /** `getBiome(x, y, z)`: asks the biome cache of the slot that holds the
        block, keyed by the block's x and z and the slot's y coordinate
        `relY >> 4`; only that cache changes. */
    method GetBiome(x: int, y: int, z: int, compute: (int, int, int) -> Biome) returns (b: Biome)
      requires Valid() && context.Some? && InTable(context.value.origin, x, y, z)
      modifies biomeCaches[OwnerSlot(context.value.origin, x, y, z)]
      ensures Valid()
      ensures var cache := biomeCaches[OwnerSlot(context.value.origin, x, y, z)];
              var key := (x, OwnerRelY(context.value.origin, y), z);
              && (key in old(cache.memo) ==> b == old(cache.memo)[key])
              && (key !in old(cache.memo) ==> b == compute(key.0, key.1, key.2))
              && cache.memo == old(cache.memo)[key := b]
      ensures forall sa: nat, sb: nat, sc: nat ::
                (sa < 3 && sb < 3 && sc < 3 && LocalSectionIndex(sa, sb, sc) != OwnerSlot(context.value.origin, x, y, z)) ==>
                  biomeCaches[LocalSectionIndex(sa, sb, sc)].memo == old(biomeCaches[LocalSectionIndex(sa, sb, sc)].memo)
    {
      var relX, relY, relZ := x - baseX, y - baseY, z - baseZ;
      RelativeSlot(context.value.origin, x, y, z, relX, relY, relZ);
      OwnerSlotFilled(context.value, x, y, z);
      b := biomeCaches[LocalSectionIndex(relX / 16, relY / 16, relZ / 16)].GetBiome(x, relY / 16, z, compute);
    }

    /** `getBlockTint(pos, resolver)`: the blended colour of the resolver's
        cache, found through the one-slot memo, else the map, else a new cache
        that is added to the map; the memo then remembers the resolver. */
    method GetBlockTint(pos: BlockPos, resolver: ColorResolver, blend: (ColorResolver, BlockPos) -> int) returns (color: int)
      requires Valid()
      modifies this
      ensures Valid()
      ensures color == blend(resolver, pos)
      ensures prevColorResolver == Some(resolver) && resolver in biomeColorCaches
      ensures resolver in old(biomeColorCaches) ==> biomeColorCaches == old(biomeColorCaches)
      ensures resolver !in old(biomeColorCaches) ==>
                fresh(biomeColorCaches[resolver]) && biomeColorCaches == old(biomeColorCaches)[resolver := biomeColorCaches[resolver]]
      ensures sections == old(sections) && context == old(context) && origin == old(origin)
      ensures baseX == old(baseX) && baseY == old(baseY) && baseZ == old(baseZ)
    {
      var cache: BiomeColorCache;
      if prevColorResolver == Some(resolver) {
        cache := prevColorCache;
      } else {
        if resolver in biomeColorCaches {
          cache := biomeColorCaches[resolver];
        } else {
          cache := new BiomeColorCache(resolver);
          biomeColorCaches := biomeColorCaches[resolver := cache];
        }
        prevColorResolver := Some(resolver);
        prevColorCache := cache;
      }
      color := cache.BlendedColor(pos, blend);
    }

    /** `unpackBlockDataR(states, section, box)`: writes the section's block into
        every block of the box that the clip `[max(box.min, pos << 4),
        min(box.max, (pos + 1) << 4)]` covers, in y-z-x order, and nothing else. */
    method UnpackBlockDataR(section: ClonedSection, box: Box)
      requires blockStates.Length == BlockCount && IsSliceBox(box)
      modifies blockStates
      ensures UnpackResult(blockStates[..], old(blockStates[..]), box, section)
    {
      var pos := section.position;

      var minBlockX := Max(box.minX, pos.MinBlockX());
      var maxBlockX := Min(box.maxX, (pos.x + 1) * 16);

      var minBlockY := Max(box.minY, pos.MinBlockY());
      var maxBlockY := Min(box.maxY, (pos.y + 1) * 16);

      var minBlockZ := Max(box.minZ, pos.MinBlockZ());
      var maxBlockZ := Min(box.maxZ, (pos.z + 1) * 16);

      ghost var s0 := blockStates[..];
      UnpackStart(s0, box, section);

      var y := minBlockY;
      while y <= maxBlockY
        invariant minBlockY <= y
        invariant Unpacked(blockStates[..], s0, box, section, y, minBlockZ, minBlockX)
        decreases maxBlockY - y
      {
        var z := minBlockZ;
        while z <= maxBlockZ
          invariant minBlockZ <= z
          invariant Unpacked(blockStates[..], s0, box, section, y, z, minBlockX)
          decreases maxBlockZ - z
        {
          var x := minBlockX;
          while x <= maxBlockX
            invariant minBlockX <= x
            invariant Unpacked(blockStates[..], s0, box, section, y, z, x)
            decreases maxBlockX - x
          {
            ClipInsideBox(box, pos, x, y, z);
            ghost var before := blockStates[..];
            blockStates[BlockIndex(box, x, y, z)] := section.blockState(x % 16, y % 16, z % 16);
            UnpackStep(before, blockStates[..], s0, box, section, x, y, z);
            x := x + 1;
          }
          UnpackCarryX(blockStates[..], s0, box, section, y, z, x);
          z := z + 1;
        }
        UnpackCarryZ(blockStates[..], s0, box, section, y, z);
        y := y + 1;
      }
      UnpackDone(blockStates[..], s0, box, section, y);
    }
  }
}
