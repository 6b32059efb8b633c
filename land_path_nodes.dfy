/** The land-pathfinding node rules of LandPathNodeMakerMixin.java: the node
    type of a block, read from a per-state cache with one fallback check, and the
    scan of a position's 24 neighbours for a danger, with a fast exit when the
    whole chunk section is known to be harmless. */
module LandPathNodes {
  import opened GameTypes

  /** A `PathNodeType`. Only OPEN and BLOCKED are singled out by this code; the
      other constants of the enumeration (WALKABLE, FENCE, LAVA, DANGER_FIRE, ...)
      are told apart by their ordinal. */
  datatype PathNodeType = Open | Blocked | Other(ordinal: nat)

  /** The lookups this code delegates to: `PathNodeCache.getPathNodeType`,
      `PathNodeCache.getNeighborPathNodeType`, `BlockState.isAir`,
      `PathNodeCache.isSectionSafeAsNeighbor` and
      `WorldHelper.areNeighborsWithinSameChunk`, all taken as functions. */
  datatype NodeRules = NodeRules(
    pathNodeType: BlockState -> PathNodeType,
    neighborPathNodeType: BlockState -> PathNodeType,
    isAir: BlockState -> bool,
    sectionSafeAsNeighbor: ChunkSection -> bool,
    neighborsWithinSameChunk: BlockPos -> bool)

  /** A chunk as `getChunkForCollisions` returns it: its array of sections. */
  datatype Chunk = Chunk(sections: seq<Option<ChunkSection>>)

  /** The block reader the pathfinder hands in: its block lookup, whether it is a
      collision reader, and (when it is) its chunk lookup by chunk coordinates,
      which may find no chunk. */
  datatype BlockReader = BlockReader(
    blockState: BlockPos -> BlockState,
    isCollisionReader: bool,
    chunkForCollisions: (int, int) -> Option<Chunk>)

  /** The build height of the game version this code targets: sections 0 to 15,
      blocks 0 to 255. */
  const SectionsPerChunk := 16
  const BuildHeight := SectionsPerChunk * 16

  /** `World.isOutsideBuildHeight(y)`. */
  predicate OutsideBuildHeight(y: int)
  {
    y < 0 || y >= BuildHeight
  }

  // ---- getBlockPathTypeRaw --------------------------------------------------

  /** `getBlockPathTypeRaw(blockView, blockPos)`: the cached node type of the
      block, except that a cached OPEN is confirmed by the land pathfindability
      check (`isPathfindable(..., LAND)`, handed in as `pathfindable`) and turns
      into BLOCKED when that fails. */
  function BlockPathTypeRaw(view: BlockPos -> BlockState, pos: BlockPos, rules: NodeRules,
                            pathfindable: (BlockState, BlockPos) -> bool): (t: PathNodeType)
    ensures rules.pathNodeType(view(pos)) != Open ==> t == rules.pathNodeType(view(pos))
    ensures t == Open <==> rules.pathNodeType(view(pos)) == Open && pathfindable(view(pos), pos)
  {
    var state := view(pos);
    var cached := rules.pathNodeType(state);
    if cached == Open then
      if !pathfindable(state, pos) then Blocked else Open
    else
      cached
  }

  /** The raw type differs from the cached type in exactly one case: a cached
      OPEN whose block is not pathfindable for land, which becomes BLOCKED. */
  lemma BlockPathTypeRawRefinesCache(view: BlockPos -> BlockState, pos: BlockPos, rules: NodeRules,
                                     pathfindable: (BlockState, BlockPos) -> bool)
    ensures BlockPathTypeRaw(view, pos, rules, pathfindable) != rules.pathNodeType(view(pos))
            <==> rules.pathNodeType(view(pos)) == Open && !pathfindable(view(pos), pos)
    ensures BlockPathTypeRaw(view, pos, rules, pathfindable) != rules.pathNodeType(view(pos))
            ==> BlockPathTypeRaw(view, pos, rules, pathfindable) == Blocked
  {
  }

  // ---- The neighbour offsets ------------------------------------------------

  /** The k-th offset of the scan, k in [0,27): y outermost, then z, then x
      innermost, each over -1, 0, 1, so that `k == 9 * (dy + 1) + 3 * (dz + 1) + (dx + 1)`.
      Returned as (dx, dy, dz). */
  function Cell(k: nat): (d: (int, int, int))
    requires k < 27
    ensures -1 <= d.0 <= 1 && -1 <= d.1 <= 1 && -1 <= d.2 <= 1
  {
    var dy := if k < 9 then -1 else if k < 18 then 0 else 1;
    var r := k - 9 * (dy + 1);
    var dz := if r < 3 then -1 else if r < 6 then 0 else 1;
    (r - 3 * (dz + 1) - 1, dy, dz)
  }

  /** The position of the scan's loop variables (y2, z2, x2). */
  function CellIndex(dx: int, dy: int, dz: int): (k: nat)
    requires -1 <= dx <= 1 && -1 <= dy <= 1 && -1 <= dz <= 1
    ensures k < 27
  {
    (dy + 1) * 9 + (dz + 1) * 3 + (dx + 1)
  }

  /** Every offset of the cube has exactly one position in the scan. */
  lemma CellRoundTrip(dx: int, dy: int, dz: int)
    requires -1 <= dx <= 1 && -1 <= dy <= 1 && -1 <= dz <= 1
    ensures Cell(CellIndex(dx, dy, dz)) == (dx, dy, dz)
  {
    CellAt(dx, dy, dz, CellIndex(dx, dy, dz));
  }

  /** The loops' counter k at (x2, y2, z2) names offset (x2, y2, z2). */
  lemma CellAt(dx: int, dy: int, dz: int, k: nat)
    requires -1 <= dx <= 1 && -1 <= dy <= 1 && -1 <= dz <= 1
    requires k == (dy + 1) * 9 + (dz + 1) * 3 + (dx + 1)
    ensures k < 27 && Cell(k) == (dx, dy, dz)
  {
  }

  /** The scan runs y outermost, z next and x innermost: a later position has a
      lexicographically larger (dy, dz, dx). */
  lemma CellOrder(i: nat, j: nat)
    requires i < j < 27
    ensures var (ix, iy, iz) := Cell(i);
            var (jx, jy, jz) := Cell(j);
            iy < jy || (iy == jy && iz < jz) || (iy == jy && iz == jz && ix < jx)
  {
  }

  /** The positions the scan skips: 4, 13 and 22, the block itself and the
      blocks straight above and below it (see SkippedExactly). */
  predicate Skipped(k: nat)
    requires k < 27
  {
    k == 4 || k == 13 || k == 22
  }

  /** The skipped positions are exactly the offsets with `x2 == 0 && z2 == 0`,
      those of the column through the block. */
  lemma SkippedExactly(k: nat)
    requires k < 27
    ensures Skipped(k) <==> Cell(k).0 == 0 && Cell(k).2 == 0
    ensures Skipped(k) <==> Cell(k) in {(0, -1, 0), (0, 0, 0), (0, 1, 0)}
  {
  }

  /** What the scan visits at position k: nothing at a skipped position, k itself otherwise. */
  function Visit(k: nat): seq<nat>
    requires k < 27
  {
    if Skipped(k) then [] else [k]
  }

  /** The positions the scan visits from position k on, in order. */
  function VisitOrder(k: nat): seq<nat>
    requires k <= 27
    decreases 27 - k
  {
    if k == 27 then [] else Visit(k) + VisitOrder(k + 1)
  }

  /** How many of the skipped positions 4, 13, 22 lie at or after k. */
  function SkippedFrom(k: nat): nat
  {
    (if k <= 4 then 1 else 0) + (if k <= 13 then 1 else 0) + (if k <= 22 then 1 else 0)
  }

  lemma {:induction false} VisitOrderLength(k: nat)
    requires k <= 27
    ensures |VisitOrder(k)| == 27 - k - SkippedFrom(k)
    decreases 27 - k
  {
    if k < 27 {
      SkippedExactly(k);
      VisitOrderLength(k + 1);
    }
  }

  /** The scan visits exactly 24 of the 27 offsets. */
  lemma VisitsTwentyFour()
    ensures |VisitOrder(0)| == 24
  {
    VisitOrderLength(0);
  }

  /** Every visited position is a non-skipped offset, and every non-skipped
      offset from k on is visited. */
  lemma {:induction false} VisitOrderContents(k: nat, j: nat)
    requires k <= j < 27
    ensures j in VisitOrder(k) <==> !Skipped(j)
    decreases 27 - k
  {
    var head, rest := Visit(k), VisitOrder(k + 1);
    assert VisitOrder(k) == head + rest;
    assert j in head + rest <==> j in head || j in rest;
    if k < j {
      VisitOrderContents(k + 1, j);
      assert j !in head;
    } else {
      VisitOrderAbove(k + 1, j);
      assert j in head <==> !Skipped(j);
    }
  }

  /** Positions before k are not visited from k on. */
  lemma {:induction false} VisitOrderAbove(k: nat, j: nat)
    requires j < k <= 27
    ensures j !in VisitOrder(k)
    decreases 27 - k
  {
    if k < 27 {
      VisitOrderAbove(k + 1, j);
    }
  }

  /** The block at offset k of `p`. */
  function Neighbour(p: BlockPos, k: nat): BlockPos
    requires k < 27
  {
    BlockPos(Cell(k).0 + p.x, Cell(k).1 + p.y, Cell(k).2 + p.z)
  }

  // ---- checkNeighbourBlocks -------------------------------------------------

  /** The chunk that `getChunkForCollisions(x >> 4, z >> 4)` finds for `p`, if
      any, has its full array of sections. */
  predicate ChunkHasAllSections(world: BlockReader, p: BlockPos)
  {
    world.chunkForCollisions(p.x / 16, p.z / 16).Some? ==>
      |world.chunkForCollisions(p.x / 16, p.z / 16).value.sections| == SectionsPerChunk
  }

  /** Whether the same-chunk branch is taken: the reader is a collision reader
      and all neighbours of `p` lie in p's chunk. */
  predicate SameChunkBranch(world: BlockReader, rules: NodeRules, p: BlockPos)
  {
    world.isCollisionReader && rules.neighborsWithinSameChunk(p)
  }

  /** The section the same-chunk branch caches: section `y >> 4` of the chunk
      holding `p`, or null above or below the build height or without a chunk. */
  function ChunkSectionOf(world: BlockReader, p: BlockPos): (s: Option<ChunkSection>)
    requires ChunkHasAllSections(world, p)
    ensures OutsideBuildHeight(p.y) ==> s.None?
    ensures world.chunkForCollisions(p.x / 16, p.z / 16).None? ==> s.None?
  {
    if !OutsideBuildHeight(p.y) && world.chunkForCollisions(p.x / 16, p.z / 16).Some? then
      world.chunkForCollisions(p.x / 16, p.z / 16).value.sections[p.y / 16]
    else
      None
  }

  /** The `section` the scan reads through: the cached one in the same-chunk
      branch, null otherwise. */
  function ScanSection(world: BlockReader, rules: NodeRules, p: BlockPos): Option<ChunkSection>
    requires ChunkHasAllSections(world, p)
  {
    if SameChunkBranch(world, rules, p) then ChunkSectionOf(world, p) else None
  }

  /** The fast exit: in the same-chunk branch, a null or empty section, or one
      the cache judges safe, cannot hold a danger. */
  predicate FastExit(world: BlockReader, rules: NodeRules, p: BlockPos)
    requires ChunkHasAllSections(world, p)
  {
    SameChunkBranch(world, rules, p) &&
      var s := ChunkSectionOf(world, p);
      SectionIsEmpty(s) || rules.sectionSafeAsNeighbor(s.value)
  }

  /** The scan's block read: through the cached section at `p & 15` when there
      is one, through the reader otherwise. */
  function ReadAt(world: BlockReader, section: Option<ChunkSection>, q: BlockPos): BlockState
  {
    match section
    case Some(s) => s.blockState(q.x % 16, q.y % 16, q.z % 16)
    case None => world.blockState(q)
  }

  /** Position k of the scan stops it: it is visited, its block is not air, and
      the block's neighbour type is not OPEN. */
  predicate Stops(world: BlockReader, rules: NodeRules, section: Option<ChunkSection>, p: BlockPos, k: nat)
    requires k < 27
  {
    && !Skipped(k)
    && !rules.isAir(ReadAt(world, section, Neighbour(p, k)))
    && rules.neighborPathNodeType(ReadAt(world, section, Neighbour(p, k))) != Open
  }

  /** The scan from position k on with fallback `t`, one position at a time. */
  function Scan(world: BlockReader, rules: NodeRules, section: Option<ChunkSection>, p: BlockPos,
                t: PathNodeType, k: nat): PathNodeType
    requires k <= 27
    decreases 27 - k
  {
    if k == 27 then t
    else if Skipped(k) then Scan(world, rules, section, p, t, k + 1)
    else
      var state := ReadAt(world, section, Neighbour(p, k));
      if rules.isAir(state) then Scan(world, rules, section, p, t, k + 1)
      else
        var neighborType := rules.neighborPathNodeType(state);
        if neighborType != Open then neighborType else Scan(world, rules, section, p, t, k + 1)
  }

  /** The first position from k on that stops the scan, or 27 if none does. */
  function StopIndex(world: BlockReader, rules: NodeRules, section: Option<ChunkSection>, p: BlockPos, k: nat): (j: nat)
    requires k <= 27
    ensures k <= j <= 27
    ensures j < 27 ==> Stops(world, rules, section, p, j)
    decreases 27 - k
  {
    if k == 27 then 27
    else if Stops(world, rules, section, p, k) then k
    else StopIndex(world, rules, section, p, k + 1)
  }

  /** The scan returns the neighbour type of the first position that stops it. */
  lemma {:induction false} ScanFirstMatch(world: BlockReader, rules: NodeRules, section: Option<ChunkSection>,
                                          p: BlockPos, t: PathNodeType, k: nat, j: nat)
    requires k <= j < 27
    requires Stops(world, rules, section, p, j)
    requires forall i :: k <= i < j ==> !Stops(world, rules, section, p, i)
    ensures Scan(world, rules, section, p, t, k) == rules.neighborPathNodeType(ReadAt(world, section, Neighbour(p, j)))
    decreases j - k
  {
    if k < j {
      assert !Stops(world, rules, section, p, k);
      ScanFirstMatch(world, rules, section, p, t, k + 1, j);
    }
  }

  /** When no position stops the scan, it returns the fallback. */
  lemma {:induction false} ScanNoMatch(world: BlockReader, rules: NodeRules, section: Option<ChunkSection>,
                                       p: BlockPos, t: PathNodeType, k: nat)
    requires k <= 27
    requires forall i :: k <= i < 27 ==> !Stops(world, rules, section, p, i)
    ensures Scan(world, rules, section, p, t, k) == t
    decreases 27 - k
  {
    if k < 27 {
      assert !Stops(world, rules, section, p, k);
      ScanNoMatch(world, rules, section, p, t, k + 1);
    }
  }

  /** The scan's answer is the first stop's neighbour type when there is a stop,
      and the fallback otherwise. */
  lemma ScanIsFirstStop(world: BlockReader, rules: NodeRules, section: Option<ChunkSection>,
                        p: BlockPos, t: PathNodeType, k: nat)
    requires k <= 27
    ensures var j := StopIndex(world, rules, section, p, k);
            && (j < 27 ==> Stops(world, rules, section, p, j)
                           && Scan(world, rules, section, p, t, k)
                              == rules.neighborPathNodeType(ReadAt(world, section, Neighbour(p, j))))
            && (j == 27 ==> Scan(world, rules, section, p, t, k) == t)
            && (forall i :: k <= i < j ==> !Stops(world, rules, section, p, i))
  {
    var j := StopIndex(world, rules, section, p, k);
    StopIndexIsFirst(world, rules, section, p, k);
    if j < 27 {
      ScanFirstMatch(world, rules, section, p, t, k, j);
    } else {
      ScanNoMatch(world, rules, section, p, t, k);
    }
  }

  /** No position before the stop index stops the scan. */
  lemma StopIndexIsFirst(world: BlockReader, rules: NodeRules, section: Option<ChunkSection>, p: BlockPos, k: nat)
    requires k <= 27
    ensures forall i :: k <= i < StopIndex(world, rules, section, p, k) ==> !Stops(world, rules, section, p, i)
  {
    forall i | k <= i < StopIndex(world, rules, section, p, k)
      ensures !Stops(world, rules, section, p, i)
    {
      BeforeStopIndex(world, rules, section, p, k, i);
    }
  }

  /** Position i, between k and the stop index from k, does not stop the scan. */
  lemma {:induction false} BeforeStopIndex(world: BlockReader, rules: NodeRules, section: Option<ChunkSection>,
                                           p: BlockPos, k: nat, i: nat)
    requires k <= i < 27 && i < StopIndex(world, rules, section, p, k)
    ensures !Stops(world, rules, section, p, i)
    decreases i - k
  {
    if k < i {
      assert !Stops(world, rules, section, p, k);
      BeforeStopIndex(world, rules, section, p, k + 1, i);
    }
  }

  /** The neighbour type of an air block is never consulted: two rule sets that
      agree on which states are air and on the neighbour type of every non-air
      state scan alike. */
  lemma {:induction false} ScanIgnoresAirTypes(world: BlockReader, r1: NodeRules, r2: NodeRules,
                                               section: Option<ChunkSection>, p: BlockPos, t: PathNodeType, k: nat)
    requires k <= 27
    requires forall s :: r1.isAir(s) == r2.isAir(s)
    requires forall s :: !r1.isAir(s) ==> r1.neighborPathNodeType(s) == r2.neighborPathNodeType(s)
    ensures Scan(world, r1, section, p, t, k) == Scan(world, r2, section, p, t, k)
    decreases 27 - k
  {
    if k < 27 {
      ScanIgnoresAirTypes(world, r1, r2, section, p, t, k + 1);
    }
  }

  /** What checkNeighbourBlocks returns for position `p` and input type `t`. */
  function NeighbourCheck(world: BlockReader, rules: NodeRules, p: BlockPos, t: PathNodeType): PathNodeType
    requires ChunkHasAllSections(world, p)
  {
    if FastExit(world, rules, p) then t else Scan(world, rules, ScanSection(world, rules, p), p, t, 0)
  }

  /** The last position the scan through `section` visits: the one that stops
      it, or the final offset (1, 1, 1) when none does. */
  function LastVisited(world: BlockReader, rules: NodeRules, section: Option<ChunkSection>, p: BlockPos): (k: nat)
    ensures k < 27 && !Skipped(k)
  {
    var j := StopIndex(world, rules, section, p, 0);
    if j < 27 then j else 26
  }

  /** The offset the scan visited last before its loops reach (x2, y2, z2),
      none at the very start. The offset before a skipped one is the offset
      before that. */
  function PrevOffset(x2: int, y2: int, z2: int): Option<(int, int, int)>
  {
    if x2 > -1 then
      if x2 - 1 == 0 && z2 == 0 then Some((-1, y2, z2)) else Some((x2 - 1, y2, z2))
    else if z2 > -1 then Some((1, y2, z2 - 1))
    else if y2 > -1 then Some((1, y2 - 1, 1))
    else None
  }

  /** `p` moved by an offset, or `p` itself. */
  function MovedBy(p: BlockPos, d: Option<(int, int, int)>): BlockPos
  {
    match d
    case None => p
    case Some((dx, dy, dz)) => BlockPos(dx + p.x, dy + p.y, dz + p.z)
  }

  /** What the loops know when they reach position k: no earlier position
      stops the scan, and `visited` holds the positions visited so far. */
  ghost predicate Reached(world: BlockReader, rules: NodeRules, section: Option<ChunkSection>, p: BlockPos,
                          k: int, visited: seq<nat>)
  {
    && 0 <= k <= 27
    && (forall j :: 0 <= j < k ==> !Stops(world, rules, section, p, j))
    && visited == VisitedBefore(k)
  }

  /** A skipped position cannot stop the scan and is not visited. */
  lemma SkipStep(world: BlockReader, rules: NodeRules, section: Option<ChunkSection>, p: BlockPos,
                 k: nat, visited: seq<nat>)
    requires k < 27 && Skipped(k) && Reached(world, rules, section, p, k, visited)
    ensures Reached(world, rules, section, p, k + 1, visited)
  {
    assert VisitedBefore(k + 1) == visited + [];
  }

  /** A visited position either stops the scan, which then returns its
      neighbour type, or the scan goes on. */
  lemma VisitStep(world: BlockReader, rules: NodeRules, section: Option<ChunkSection>, p: BlockPos,
                  t: PathNodeType, k: nat, visited: seq<nat>)
    requires k < 27 && !Skipped(k) && Reached(world, rules, section, p, k, visited)
    ensures Stops(world, rules, section, p, k) ==>
              && Scan(world, rules, section, p, t, 0) == rules.neighborPathNodeType(ReadAt(world, section, Neighbour(p, k)))
              && StopIndex(world, rules, section, p, 0) == k
              && LastVisited(world, rules, section, p) == k
              && visited + [k] == VisitedBefore(LastVisited(world, rules, section, p) + 1)
    ensures !Stops(world, rules, section, p, k) ==> Reached(world, rules, section, p, k + 1, visited + [k])
  {
    assert VisitedBefore(k + 1) == visited + [k];
    if Stops(world, rules, section, p, k) {
      ScanFirstMatch(world, rules, section, p, t, 0, k);
      ScanIsFirstStop(world, rules, section, p, t, 0);
    }
  }

  /** A scan that no position stops returns the fallback, visited every
      position and was last at offset (1, 1, 1). */
  lemma EndStep(world: BlockReader, rules: NodeRules, section: Option<ChunkSection>, p: BlockPos, t: PathNodeType,
                visited: seq<nat>)
    requires Reached(world, rules, section, p, 27, visited)
    ensures Scan(world, rules, section, p, t, 0) == t
    ensures StopIndex(world, rules, section, p, 0) == 27
    ensures Cell(26) == (1, 1, 1)
    ensures LastVisited(world, rules, section, p) == 26
    ensures Neighbour(p, LastVisited(world, rules, section, p)) == BlockPos(1 + p.x, 1 + p.y, 1 + p.z)
    ensures visited == VisitedBefore(LastVisited(world, rules, section, p) + 1)
  {
    ScanNoMatch(world, rules, section, p, t, 0);
    ScanIsFirstStop(world, rules, section, p, t, 0);
  }

  /** The positions the loops have visited when they reach position k. */
  function VisitedBefore(k: nat): seq<nat>
    requires k <= 27
  {
    if k == 0 then [] else VisitedBefore(k - 1) + Visit(k - 1)
  }

  /** What the loops have visited and what is left to visit make up the visit
      order. */
  lemma {:induction false} VisitedBeforeSplits(k: nat)
    requires k <= 27
    ensures VisitedBefore(k) + VisitOrder(k) == VisitOrder(0)
  {
    if k > 0 {
      VisitedBeforeSplits(k - 1);
      AppendAssociative(VisitedBefore(k - 1), Visit(k - 1), VisitOrder(k));
    }
  }

  lemma AppendAssociative<T>(a: seq<T>, b: seq<T>, c: seq<T>)
    ensures (a + b) + c == a + (b + c)
  {
  }

  /** The visits so far are a prefix of the visit order; just after a visit of
      position k, k is the last of them. */
  lemma VisitedBeforeIsPrefix(k: nat)
    requires k < 27 && !Skipped(k)
    ensures VisitedBefore(k + 1) <= VisitOrder(0)
    ensures |VisitedBefore(k + 1)| > 0 && VisitedBefore(k + 1)[|VisitedBefore(k + 1)| - 1] == k
  {
    VisitedBeforeSplits(k + 1);
    var v := VisitedBefore(k + 1);
    assert (v + VisitOrder(k + 1))[..|v|] == v;
  }

  /** Past the last position, the visits are the whole visit order: 24
      positions, the last of them the final offset (1, 1, 1). */
  lemma VisitedAll()
    ensures VisitedBefore(27) == VisitOrder(0)
    ensures |VisitedBefore(27)| == 24 && VisitedBefore(27)[23] == 26
  {
    VisitedBeforeSplits(27);
    assert VisitedBefore(27) + VisitOrder(27) == VisitedBefore(27);
    VisitsTwentyFour();
    VisitedBeforeIsPrefix(26);
  }

  /** The caller's `BlockPos.Mutable`, which the scan moves. */
  class MutablePos {
    var x: int
    var y: int
    var z: int

    constructor(x: int, y: int, z: int)
      ensures Pos() == BlockPos(x, y, z)
    {
      this.x, this.y, this.z := x, y, z;
    }

    function Pos(): BlockPos
      reads this
    {
      BlockPos(x, y, z)
    }

    /** `set(x, y, z)`. */
    method Set(x: int, y: int, z: int)
      modifies this
      ensures Pos() == BlockPos(x, y, z)
    {
      this.x, this.y, this.z := x, y, z;
    }
  }

  /** One visit of the scan at offset (x2, y2, z2) of (x, y, z), position k:
      moves `pos` there and reads its block, through the cached section when
      there is one. Answers the neighbour type when the block is not air and
      its neighbour type is not OPEN, and nothing when the scan goes on. The
      answer is then the scan's (of fallback `t`), and the ghost trace of the
      visited positions gains k. */
  method VisitNeighbour(world: BlockReader, rules: NodeRules, section: Option<ChunkSection>, pos: MutablePos,
                        x: int, y: int, z: int, x2: int, y2: int, z2: int,
                        ghost p: BlockPos, ghost k: nat)
    returns (found: Option<PathNodeType>)
    requires p == BlockPos(x, y, z) && k < 27 && !Skipped(k) && Cell(k) == (x2, y2, z2)
    modifies pos
    ensures pos.Pos() == Neighbour(p, k)
    ensures found.Some? <==> Stops(world, rules, section, p, k)
    ensures found.Some? ==> found.value == rules.neighborPathNodeType(ReadAt(world, section, Neighbour(p, k)))
  {
    pos.Set(x2 + x, y2 + y, z2 + z);

    var state: BlockState;
    if section.Some? {
      state := section.value.blockState(pos.x % 16, pos.y % 16, pos.z % 16);
    } else {
      state := world.blockState(pos.Pos());
    }

    if rules.isAir(state) {
      return None;
    }

    var neighborType := rules.neighborPathNodeType(state);

    if neighborType != Open {
      return Some(neighborType);
    }
    return None;
  }

  /** `checkNeighbourBlocks(world, pos, type)`: unless the fast exit applies,
      scans the 24 neighbours of `pos` (ScanNeighbours). */
  method CheckNeighbourBlocks(world: BlockReader, rules: NodeRules, pos: MutablePos, t: PathNodeType)
    returns (r: PathNodeType, ghost trace: seq<nat>)
    requires ChunkHasAllSections(world, pos.Pos())
    modifies pos
    ensures r == NeighbourCheck(world, rules, old(pos.Pos()), t)
    ensures FastExit(world, rules, old(pos.Pos())) ==> pos.Pos() == old(pos.Pos()) && trace == []
    ensures !FastExit(world, rules, old(pos.Pos())) ==>
              var section := ScanSection(world, rules, old(pos.Pos()));
              && pos.Pos() == Neighbour(old(pos.Pos()), LastVisited(world, rules, section, old(pos.Pos())))
              && trace == VisitedBefore(LastVisited(world, rules, section, old(pos.Pos())) + 1)
  {
    var x, y, z := pos.x, pos.y, pos.z;

    var section: Option<ChunkSection> := None;

    if world.isCollisionReader && rules.neighborsWithinSameChunk(BlockPos(x, y, z)) {
      if !OutsideBuildHeight(y) {
        var chunk := world.chunkForCollisions(x / 16, z / 16);
        if chunk.Some? {
          section := chunk.value.sections[y / 16];
        }
      }
      if SectionIsEmpty(section) || rules.sectionSafeAsNeighbor(section.value) {
        return t, [];
      }
    }
    assert section == ScanSection(world, rules, BlockPos(x, y, z));
    r, trace := ScanNeighbours(world, rules, section, pos, t);
  }

  /** The loops of `checkNeighbourBlocks`: visits the 24 neighbours of `pos` in
      y-z-x order, reading through `section` when there is one, skipping air,
      and returns the neighbour type of the first one that is not OPEN, or `t`
      when none is. `pos` is left at the last neighbour visited. The ghost
      `trace` lists the positions visited, which is the visit order up to the
      last one (a prefix of it by VisitedBeforeIsPrefix, all 24 positions when
      the scan runs to the end by VisitedAll). */
  method ScanNeighbours(world: BlockReader, rules: NodeRules, section: Option<ChunkSection>, pos: MutablePos,
                        t: PathNodeType) returns (r: PathNodeType, ghost trace: seq<nat>)
    modifies pos
    ensures r == Scan(world, rules, section, old(pos.Pos()), t, 0)
    ensures pos.Pos() == Neighbour(old(pos.Pos()), LastVisited(world, rules, section, old(pos.Pos())))
    ensures trace == VisitedBefore(LastVisited(world, rules, section, old(pos.Pos())) + 1)
  {
    var x, y, z := pos.x, pos.y, pos.z;
    ghost var p := pos.Pos();

    ghost var k: nat := 0;
    ghost var visited: seq<nat> := [];
    for y2 := -1 to 2
      invariant k == (y2 + 1) * 9
      invariant pos.Pos() == MovedBy(p, PrevOffset(-1, y2, -1))
      invariant Reached(world, rules, section, p, k, visited)
    {
      for z2 := -1 to 2
        invariant k == (y2 + 1) * 9 + (z2 + 1) * 3
        invariant pos.Pos() == MovedBy(p, PrevOffset(-1, y2, z2))
        invariant Reached(world, rules, section, p, k, visited)
      {
        var found;
        found, visited := ScanRow(world, rules, section, pos, x, y, z, y2, z2, p, t, k, visited);
        if found.Some? {
          return found.value, visited;
        }
        k := k + 3;
      }
    }
    EndStep(world, rules, section, p, t, visited);
    return t, visited;
  }

  /** The innermost loop of `checkNeighbourBlocks`, over x2 for one (y2, z2):
      positions k0 to k0 + 2 of the scan. Answers the first danger among them
      and leaves `pos` there, or nothing with `pos` at offset (1, y2, z2). */
  method ScanRow(world: BlockReader, rules: NodeRules, section: Option<ChunkSection>, pos: MutablePos,
                 x: int, y: int, z: int, y2: int, z2: int,
                 ghost p: BlockPos, ghost t: PathNodeType, ghost k0: nat, ghost visited0: seq<nat>)
    returns (found: Option<PathNodeType>, ghost visited: seq<nat>)
    requires p == BlockPos(x, y, z) && -1 <= y2 <= 1 && -1 <= z2 <= 1
    requires k0 == (y2 + 1) * 9 + (z2 + 1) * 3
    requires pos.Pos() == MovedBy(p, PrevOffset(-1, y2, z2))
    requires Reached(world, rules, section, p, k0, visited0)
    modifies pos
    ensures found.Some? ==>
              && found.value == Scan(world, rules, section, p, t, 0)
              && pos.Pos() == Neighbour(p, LastVisited(world, rules, section, p))
              && visited == VisitedBefore(LastVisited(world, rules, section, p) + 1)
    ensures found.None? ==>
              && pos.Pos() == BlockPos(1 + x, y2 + y, z2 + z)
              && Reached(world, rules, section, p, k0 + 3, visited)
  {
    ghost var k := k0;
    visited := visited0;
    for x2 := -1 to 2
      invariant k == k0 + (x2 + 1)
      invariant pos.Pos() == MovedBy(p, PrevOffset(x2, y2, z2))
      invariant Reached(world, rules, section, p, k, visited)
    {
      CellAt(x2, y2, z2, k);
      if x2 == 0 && z2 == 0 {
        SkipStep(world, rules, section, p, k, visited);
        k := k + 1;
        continue;
      }

      SkippedExactly(k);
      VisitStep(world, rules, section, p, t, k, visited);
      found := VisitNeighbour(world, rules, section, pos, x, y, z, x2, y2, z2, p, k);
      visited := visited + [k];
      if found.Some? {
        return;
      }
      k := k + 1;
    }
    return None, visited;
  }
}
