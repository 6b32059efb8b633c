/** The fixed geometry of a world slice and its bit-packed index functions
    (WorldSlice.java, the constants and getLocalBlockIndex, getLocalSectionIndex,
    getLocalChunkIndex, getBlockIndex).

    Java's `v << k` on a non-negative int is `v * 2^k` (the coordinates here are
    small, so no 32-bit overflow arises) and `|` is bitwise or, modelled by `Or`
    on naturals. */
module SliceGeometry {

  // ---- Constants, evaluated --------------------------------------------------

  /** Blocks per axis of a section. */
  const SectionBlockLength: nat := 16
  /** Blocks in a section. */
  const SectionBlockCount: nat := 4096
  /** Blocks the slice reaches beyond the origin section on every side. */
  const NeighborBlockRadius: nat := 2
  /** Blocks per axis of a slice: 16 + 2 * 2. */
  const BlockLength: nat := 20
  /** Blocks in a slice: 20^3. */
  const BlockCount: nat := 8000
  /** Sections the slice reaches beyond the origin section: roundToward(2, 16) >> 4. */
  const NeighborChunkRadius: nat := 1
  /** Sections per axis of a slice: 1 + 2 * 1. */
  const SectionLength: nat := 3
  /** Section table slots per axis: the smallest power of two >= 3. */
  const TableLength: nat := 4
  /** Bits per axis of a section table index: bitCount(4 - 1). */
  const TableBits: nat := 2
  /** Slots in the section table: 4^3. */
  const SectionTableArraySize: nat := 64

  lemma ConstantsAgree()
    ensures SectionBlockCount == SectionBlockLength * SectionBlockLength * SectionBlockLength
    ensures BlockLength == SectionBlockLength + NeighborBlockRadius * 2
    ensures BlockCount == BlockLength * BlockLength * BlockLength
    ensures SectionLength == 1 + NeighborChunkRadius * 2
    ensures TableLength == Pow2(TableBits) && SectionLength <= TableLength
    ensures SectionTableArraySize == TableLength * TableLength * TableLength
  {
  }

  // ---- Bit operations on naturals --------------------------------------------

  function Pow2(k: nat): (r: nat)
    ensures r >= 1
  {
    if k == 0 then 1 else 2 * Pow2(k - 1)
  }

  /** Java's `v << k` for a non-negative `v`: k doublings. */
  function Shl(v: nat, k: nat): (r: nat)
  {
    if k == 0 then v else 2 * Shl(v, k - 1)
  }

  /** Two shifts in a row are one shift by the sum. */
  lemma {:induction false} ShlShl(v: nat, j: nat, k: nat)
    ensures Shl(Shl(v, j), k) == Shl(v, j + k)
  {
    if k > 0 {
      ShlShl(v, j, k - 1);
    }
  }

  /** The shifts the index packings use, as multiplications. */
  lemma ShlBy2(v: nat)
    ensures Shl(v, 2) == 4 * v
  {
    assert Shl(v, 1) == 2 * v;
  }

  lemma ShlBy4(v: nat)
    ensures Shl(v, 4) == 16 * v
  {
    ShlShl(v, 2, 2);
    ShlBy2(v);
    ShlBy2(Shl(v, 2));
  }

  lemma ShlBy8(v: nat)
    ensures Shl(v, 8) == 256 * v
  {
    ShlShl(v, 4, 4);
    ShlBy4(v);
    ShlBy4(Shl(v, 4));
  }

  /** Bitwise or of two naturals, bit by bit from the lowest. */
  function Or(a: nat, b: nat): nat
    decreases a + b
  {
    if a == 0 then b
    else if b == 0 then a
    else 2 * Or(a / 2, b / 2) + (if a % 2 == 1 || b % 2 == 1 then 1 else 0)
  }

  /** Or-ing a value shifted left by `k` with a value below `2^k` is addition:
      the two occupy disjoint bits. */
  lemma {:induction false} OrDisjoint(a: nat, b: nat, k: nat)
    requires b < Pow2(k)
    ensures Or(Shl(a, k), b) == Shl(a, k) + b
  {
    if k == 0 {
      assert b == 0;
    } else if b == 0 {
    } else if Shl(a, k) == 0 {
    } else {
      var hi := Shl(a, k);
      assert hi / 2 == Shl(a, k - 1) && hi % 2 == 0;
      OrDisjoint(a, b / 2, k - 1);
      assert Or(hi, b) == 2 * Or(hi / 2, b / 2) + b % 2;
    }
  }

  /** OrDisjoint for a field already shifted into place, with `p == 2^k`. */
  lemma OrAdd(hi: nat, lo: nat, a: nat, k: nat, p: nat)
    requires k <= 8 && p == Pow2(k) && hi == Shl(a, k) && lo < p
    ensures Or(hi, lo) == hi + lo
  {
    OrDisjoint(a, lo, k);
  }

  // ---- Local (section-relative) block index ---------------------------------
  // The index functions are written as the sums their bit packing amounts to;
  // the *MatchesJava lemmas prove them equal to the shift-and-or expressions
  // of WorldSlice.java.

  /** `getLocalBlockIndex(x, y, z)`: 4 bits per axis, y highest, then z, then x. */
  function LocalBlockIndex(x: nat, y: nat, z: nat): (r: nat)
    requires x < 16 && y < 16 && z < 16
    ensures r < SectionBlockCount
  {
    y * 256 + z * 16 + x
  }

  /** The packing is Java's `y << 8 | z << 4 | x`. */
  lemma LocalBlockIndexMatchesJava(x: nat, y: nat, z: nat)
    requires x < 16 && y < 16 && z < 16
    ensures LocalBlockIndex(x, y, z) == Or(Or(Shl(y, 8), Shl(z, 4)), x)
  {
    var sy, sz := Shl(y, 8), Shl(z, 4);
    var hi := Or(sy, sz);
    assert hi == y * 256 + z * 16 by {
      ShlBy8(y);
      ShlBy4(z);
      OrAdd(sy, sz, y, 8, 256);
    }
    assert Or(hi, x) == hi + x by {
      ShlBy4(y * 16 + z);
      OrAdd(hi, x, y * 16 + z, 4, 16);
    }
  }

  /** The local block index is injective on [0,16)^3. */
  lemma LocalBlockIndexInjective(x: nat, y: nat, z: nat, x': nat, y': nat, z': nat)
    requires x < 16 && y < 16 && z < 16 && x' < 16 && y' < 16 && z' < 16
    requires LocalBlockIndex(x, y, z) == LocalBlockIndex(x', y', z')
    ensures x == x' && y == y' && z == z'
  {
  }

  // ---- Section table index ---------------------------------------------------

  /** `getLocalSectionIndex(x, y, z)`: TABLE_BITS = 2 bits per axis, y highest. */
  function LocalSectionIndex(x: nat, y: nat, z: nat): (r: nat)
    requires x < TableLength && y < TableLength && z < TableLength
    ensures r < SectionTableArraySize
  {
    y * 16 + z * 4 + x
  }

  /** The packing is Java's `y << TABLE_BITS << TABLE_BITS | z << TABLE_BITS | x`. */
  lemma LocalSectionIndexMatchesJava(x: nat, y: nat, z: nat)
    requires x < TableLength && y < TableLength && z < TableLength
    ensures LocalSectionIndex(x, y, z) == Or(Or(Shl(Shl(y, TableBits), TableBits), Shl(z, TableBits)), x)
  {
    var sy, sz := Shl(Shl(y, 2), 2), Shl(z, 2);
    var hi := Or(sy, sz);
    assert hi == y * 16 + z * 4 by {
      ShlShl(y, 2, 2);
      ShlBy4(y);
      ShlBy2(z);
      OrAdd(sy, sz, y, 4, 16);
    }
    assert Or(hi, x) == hi + x by {
      ShlBy2(y * 4 + z);
      OrAdd(hi, x, y * 4 + z, 2, 4);
    }
  }

  /** The section table index is injective on [0,4)^3. */
  lemma LocalSectionIndexInjective(x: nat, y: nat, z: nat, x': nat, y': nat, z': nat)
    requires x < 4 && y < 4 && z < 4 && x' < 4 && y' < 4 && z' < 4
    requires LocalSectionIndex(x, y, z) == LocalSectionIndex(x', y', z')
    ensures x == x' && y == y' && z == z'
  {
  }

  /** `getLocalChunkIndex(x, z)`: the z and x fields of a section index. */
  function LocalChunkIndex(x: nat, z: nat): (r: nat)
    requires x < TableLength && z < TableLength
    ensures r < TableLength * TableLength
  {
    z * 4 + x
  }

  /** The packing is Java's `z << TABLE_BITS | x`. */
  lemma LocalChunkIndexMatchesJava(x: nat, z: nat)
    requires x < TableLength && z < TableLength
    ensures LocalChunkIndex(x, z) == Or(Shl(z, TableBits), x)
  {
    ShlBy2(z);
    OrAdd(Shl(z, 2), x, z, 2, 4);
  }

  /** A chunk index is the section index of the bottom layer of the table. */
  lemma ChunkIndexIsBottomLayer(x: nat, z: nat)
    requires x < TableLength && z < TableLength
    ensures LocalChunkIndex(x, z) == LocalSectionIndex(x, 0, z)
  {
  }

  /** The slot coordinates a slot index encodes (the inverse of LocalSectionIndex). */
  function SlotX(i: nat): nat { i % 4 }
  function SlotZ(i: nat): nat { (i / 4) % 4 }
  function SlotY(i: nat): nat { (i / 16) % 4 }

  /** The slots that a 3x3x3 neighbourhood occupies: every coordinate below 3. */
  predicate InUseSlot(i: int)
  {
    0 <= i < SectionTableArraySize && SlotX(i) < SectionLength && SlotY(i) < SectionLength && SlotZ(i) < SectionLength
  }

  /** Division by 4 of `n == 4 * q + r` for 0 <= r < 4. */
  lemma DivMod4(n: int, q: int, r: int)
    requires 0 <= r < 4 && n == 4 * q + r
    ensures n / 4 == q && n % 4 == r
  {
  }

  /** Division by 16 of `n == 16 * q + r` for 0 <= r < 16. */
  lemma Div16(n: int, q: int, r: int)
    requires 0 <= r < 16 && n == 16 * q + r
    ensures n / 16 == q
  {
  }

  /** Every slot index is the section index of its decoded coordinates, and it is
      in use exactly when those coordinates are all below 3. */
  lemma SlotRoundTrip(i: nat)
    requires i < SectionTableArraySize
    ensures SlotX(i) < 4 && SlotY(i) < 4 && SlotZ(i) < 4
    ensures LocalSectionIndex(SlotX(i), SlotY(i), SlotZ(i)) == i
    ensures InUseSlot(i) <==> (SlotX(i) < 3 && SlotY(i) < 3 && SlotZ(i) < 3)
  {
    var q, x := i / 4, i % 4;
    var y, z := q / 4, q % 4;
    assert i == 4 * q + x && q == 4 * y + z && y < 4;
    assert LocalSectionIndex(x, y, z) == i;
    SectionIndexRoundTrip(x, y, z);
  }

  /** Decoding a section index gives back its coordinates; the slot is in use
      exactly when all coordinates are below 3. */
  lemma SectionIndexRoundTrip(x: nat, y: nat, z: nat)
    requires x < 4 && y < 4 && z < 4
    ensures SlotX(LocalSectionIndex(x, y, z)) == x
    ensures SlotY(LocalSectionIndex(x, y, z)) == y
    ensures SlotZ(LocalSectionIndex(x, y, z)) == z
    ensures InUseSlot(LocalSectionIndex(x, y, z)) <==> (x < 3 && y < 3 && z < 3)
  {
    var i := LocalSectionIndex(x, y, z);
    DivMod4(i, y * 4 + z, x);
    DivMod4(y * 4 + z, y, z);
    Div16(i, y, z * 4 + x);
  }

  // ---- Slice boxes and the dense block index --------------------------------

  /** A `BoundingBox`: inclusive minimum and maximum block coordinates. */
  datatype Box = Box(minX: int, minY: int, minZ: int, maxX: int, maxY: int, maxZ: int)

  /** A box of the size a slice covers: 20 blocks on every axis. */
  predicate IsSliceBox(box: Box)
  {
    && box.maxX == box.minX + BlockLength - 1
    && box.maxY == box.minY + BlockLength - 1
    && box.maxZ == box.minZ + BlockLength - 1
  }

  predicate InBox(box: Box, x: int, y: int, z: int)
  {
    box.minX <= x <= box.maxX && box.minY <= y <= box.maxY && box.minZ <= z <= box.maxZ
  }

  /** `getBlockIndex(box, x, y, z)`: y-major, then z, then x, with stride 20. */
  function BlockIndex(box: Box, x: int, y: int, z: int): (r: int)
    requires IsSliceBox(box) && InBox(box, x, y, z)
    ensures 0 <= r < BlockCount
  {
    var x2 := x - box.minX;
    var y2 := y - box.minY;
    var z2 := z - box.minZ;
    (y2 * BlockLength * BlockLength) + (z2 * BlockLength) + x2
  }

  /** The block coordinates a dense index stands for (the inverse of BlockIndex). */
  function CoordX(box: Box, i: int): int { box.minX + i % BlockLength }
  function CoordZ(box: Box, i: int): int { box.minZ + (i / BlockLength) % BlockLength }
  function CoordY(box: Box, i: int): int { box.minY + i / (BlockLength * BlockLength) }

  /** Every dense index is the index of exactly one block of the box. */
  lemma CoordRoundTrip(box: Box, i: int)
    requires IsSliceBox(box) && 0 <= i < BlockCount
    ensures InBox(box, CoordX(box, i), CoordY(box, i), CoordZ(box, i))
    ensures BlockIndex(box, CoordX(box, i), CoordY(box, i), CoordZ(box, i)) == i
  {
    var q := i / BlockLength;
    assert i == q * BlockLength + i % BlockLength;
    assert q == (q / BlockLength) * BlockLength + q % BlockLength;
    assert q / BlockLength == i / (BlockLength * BlockLength);
  }

  /** Decoding the index of a block gives back that block. */
  lemma BlockIndexRoundTrip(box: Box, x: int, y: int, z: int)
    requires IsSliceBox(box) && InBox(box, x, y, z)
    ensures CoordX(box, BlockIndex(box, x, y, z)) == x
    ensures CoordY(box, BlockIndex(box, x, y, z)) == y
    ensures CoordZ(box, BlockIndex(box, x, y, z)) == z
  {
    var x2, y2, z2 := x - box.minX, y - box.minY, z - box.minZ;
    var i := BlockIndex(box, x, y, z);
    assert i == (y2 * BlockLength + z2) * BlockLength + x2;
    assert i / BlockLength == y2 * BlockLength + z2 && i % BlockLength == x2;
    assert i / (BlockLength * BlockLength) == y2;
  }

  /** BlockIndex is injective on the box (with CoordRoundTrip: a bijection onto [0, 8000)). */
  lemma BlockIndexInjective(box: Box, x: int, y: int, z: int, x': int, y': int, z': int)
    requires IsSliceBox(box) && InBox(box, x, y, z) && InBox(box, x', y', z')
    requires BlockIndex(box, x, y, z) == BlockIndex(box, x', y', z')
    ensures x == x' && y == y' && z == z'
  {
    BlockIndexRoundTrip(box, x, y, z);
    BlockIndexRoundTrip(box, x', y', z');
  }
}
