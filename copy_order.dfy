/** Why copyData fills the dense block array correctly (WorldSlice.java,
    copyData and unpackBlockDataR).

    unpackBlockDataR clips a section against the volume with an INCLUSIVE upper
    bound `(pos + 1) << 4`, so every section also writes the first plane of the
    next section along each axis. A block of the volume is therefore written by
    its own section and possibly by the sections just below it on x, y or z.
    copyData visits the 27 slots in x-then-y-then-z order; every section that
    writes a block has slot coordinates no larger, axis by axis, than the block's
    own section, so the block's own section comes last in that order and its
    write is the one that stays. */
module CopyOrder {
  import opened GameTypes
  import opened SliceGeometry
  import opened SliceContext

  // ---- unpackBlockDataR: one section ----------------------------------------

  /** Progress of unpackBlockDataR's y-z-x loop nest: block (x, y, z) has been
      visited once the nest has reached (y0, z0, x0). */
  predicate Visited(y0: int, z0: int, x0: int, x: int, y: int, z: int)
  {
    y < y0 || (y == y0 && (z < z0 || (z == z0 && x < x0)))
  }

  /** The dense array `s` once unpackBlockDataR, started on `s0`, has reached
      (y0, z0, x0): the visited blocks of the clip hold the section's block, every
      other block of the box its old value. */
  ghost predicate Unpacked(s: seq<BlockState>, s0: seq<BlockState>, box: Box, sec: ClonedSection, y0: int, z0: int, x0: int)
  {
    && |s| == BlockCount && |s0| == BlockCount && IsSliceBox(box)
    && forall x, y, z :: InBox(box, x, y, z) ==>
         s[BlockIndex(box, x, y, z)]
         == if InClip(box, sec.position, x, y, z) && Visited(y0, z0, x0, x, y, z)
            then sec.blockState(x % 16, y % 16, z % 16)
            else s0[BlockIndex(box, x, y, z)]
  }

  /** The stored block of one point after one store of the inner loop. */
  lemma UnpackStepAt(box: Box, sec: ClonedSection, x: int, y: int, z: int, x': int, y': int, z': int,
                     before: BlockState, after: BlockState, orig: BlockState)
    requires IsSliceBox(box) && InBox(box, x', y', z')
    requires before == if InClip(box, sec.position, x', y', z') && Visited(y, z, x, x', y', z')
                       then sec.blockState(x' % 16, y' % 16, z' % 16) else orig
    requires (x', y', z') == (x, y, z) ==> after == sec.blockState(x % 16, y % 16, z % 16)
    requires (x', y', z') != (x, y, z) ==> after == before
    requires InClip(box, sec.position, x, y, z)
    ensures after == if InClip(box, sec.position, x', y', z') && Visited(y, z, x + 1, x', y', z')
                     then sec.blockState(x' % 16, y' % 16, z' % 16) else orig
  {
  }

  /** One store `blockStates[getBlockIndex(box, x, y, z)] = ...` of the inner
      loop advances the loop nest by one block. */
  lemma UnpackStep(s: seq<BlockState>, s': seq<BlockState>, s0: seq<BlockState>, box: Box, sec: ClonedSection,
                   x: int, y: int, z: int)
    requires Unpacked(s, s0, box, sec, y, z, x)
    requires InClip(box, sec.position, x, y, z)
    requires InBox(box, x, y, z)
    requires s' == s[BlockIndex(box, x, y, z) := sec.blockState(x % 16, y % 16, z % 16)]
    ensures Unpacked(s', s0, box, sec, y, z, x + 1)
  {
    var j := BlockIndex(box, x, y, z);
    forall x', y', z' | InBox(box, x', y', z')
      ensures s'[BlockIndex(box, x', y', z')]
              == if InClip(box, sec.position, x', y', z') && Visited(y, z, x + 1, x', y', z')
                 then sec.blockState(x' % 16, y' % 16, z' % 16) else s0[BlockIndex(box, x', y', z')]
    {
      var k := BlockIndex(box, x', y', z');
      assert (x', y', z') != (x, y, z) ==> k != j by {
        if k == j {
          BlockIndexInjective(box, x', y', z', x, y, z);
        }
      }
      UnpackStepAt(box, sec, x, y, z, x', y', z', s[k], s'[k], s0[k]);
    }
  }

  /** Leaving the x loop past the clip's last x is the start of the next z. */
  lemma UnpackCarryX(s: seq<BlockState>, s0: seq<BlockState>, box: Box, sec: ClonedSection, y: int, z: int, x: int)
    requires x > ClipMaxX(box, sec.position)
    ensures Unpacked(s, s0, box, sec, y, z, x) <==> Unpacked(s, s0, box, sec, y, z + 1, ClipMinX(box, sec.position))
  {
  }

  /** Leaving the z loop past the clip's last z is the start of the next y. */
  lemma UnpackCarryZ(s: seq<BlockState>, s0: seq<BlockState>, box: Box, sec: ClonedSection, y: int, z: int)
    requires z > ClipMaxZ(box, sec.position)
    ensures Unpacked(s, s0, box, sec, y, z, ClipMinX(box, sec.position))
            <==> Unpacked(s, s0, box, sec, y + 1, ClipMinZ(box, sec.position), ClipMinX(box, sec.position))
  {
  }

  /** What unpackBlockDataR leaves behind, started on `s0`: every block of the
      clip holds the section's block, every other block of the box its old value. */
  ghost predicate UnpackResult(s: seq<BlockState>, s0: seq<BlockState>, box: Box, sec: ClonedSection)
  {
    && |s| == BlockCount && |s0| == BlockCount && IsSliceBox(box)
    && forall x, y, z :: InBox(box, x, y, z) ==>
         s[BlockIndex(box, x, y, z)]
         == if InClip(box, sec.position, x, y, z) then sec.blockState(x % 16, y % 16, z % 16)
            else s0[BlockIndex(box, x, y, z)]
  }

  /** Past the clip's last y, every block of the clip has been written. */
  lemma UnpackDone(s: seq<BlockState>, s0: seq<BlockState>, box: Box, sec: ClonedSection, y: int)
    requires y > ClipMaxY(box, sec.position)
    requires Unpacked(s, s0, box, sec, y, ClipMinZ(box, sec.position), ClipMinX(box, sec.position))
    ensures UnpackResult(s, s0, box, sec)
  {
  }

  /** Before the first y nothing has been written. */
  lemma UnpackStart(s: seq<BlockState>, box: Box, sec: ClonedSection)
    requires |s| == BlockCount && IsSliceBox(box)
    ensures Unpacked(s, s, box, sec, ClipMinY(box, sec.position), ClipMinZ(box, sec.position), ClipMinX(box, sec.position))
  {
  }

  // ---- copyData: all 27 sections --------------------------------------------

  /** Progress of copyData's x-y-z loop nest over slot coordinates: slot (a, b, c)
      has been unpacked once the nest has reached (ax, ay, az). */
  predicate SlotBefore(a: int, b: int, c: int, ax: int, ay: int, az: int)
  {
    a < ax || (a == ax && (b < ay || (b == ay && c < az)))
  }

  /** The dense array once copyData has reached slot (ax, ay, az): every block of
      the volume whose own section has been unpacked holds that section's block. */
  ghost predicate Copied(ctx: RenderContext, s: seq<BlockState>, ax: int, ay: int, az: int)
  {
    && ValidContext(ctx) && |s| == BlockCount
    && forall x, y, z ::
         (InBox(ctx.volume, x, y, z) &&
          SlotBefore(OwnerRelX(ctx.origin, x), OwnerRelY(ctx.origin, y), OwnerRelZ(ctx.origin, z), ax, ay, az)) ==>
         s[BlockIndex(ctx.volume, x, y, z)] == OwnerBlock(ctx, x, y, z)
  }

  /** The section at slot (a, b, c) of a well-formed context sits at origin - 1 + (a, b, c). */
  lemma SlotPosition(ctx: RenderContext, a: nat, b: nat, c: nat)
    requires ValidContext(ctx) && a < 3 && b < 3 && c < 3
    ensures ctx.sections[LocalSectionIndex(a, b, c)].Some?
    ensures ctx.sections[LocalSectionIndex(a, b, c)].value.position
            == SectionPos(ctx.origin.x - 1 + a, ctx.origin.y - 1 + b, ctx.origin.z - 1 + c)
  {
    SectionIndexRoundTrip(a, b, c);
  }

  /** One block of the volume after the section at slot (a, b, c) is unpacked:
      if the slot is the block's own section, the block now holds its section's
      block; if its own section came earlier, the slot does not write it. */
  lemma CopyStepAt(ctx: RenderContext, a: nat, b: nat, c: nat, sec: ClonedSection, x: int, y: int, z: int,
                   before: BlockState, after: BlockState)
    requires ValidContext(ctx) && a < 3 && b < 3 && c < 3
    requires ctx.sections[LocalSectionIndex(a, b, c)] == Some(sec)
    requires InBox(ctx.volume, x, y, z)
    requires SlotBefore(OwnerRelX(ctx.origin, x), OwnerRelY(ctx.origin, y), OwnerRelZ(ctx.origin, z), a, b, c) ==>
             before == OwnerBlock(ctx, x, y, z)
    requires after == if InClip(ctx.volume, sec.position, x, y, z) then sec.blockState(x % 16, y % 16, z % 16) else before
    ensures SlotBefore(OwnerRelX(ctx.origin, x), OwnerRelY(ctx.origin, y), OwnerRelZ(ctx.origin, z), a, b, c + 1) ==>
            after == OwnerBlock(ctx, x, y, z)
  {
    var o := ctx.origin;
    SlotPosition(ctx, a, b, c);
    ClipAxis(o.x, a, x);
    ClipAxis(o.y, b, y);
    ClipAxis(o.z, c, z);
    var rx, ry, rz := OwnerRelX(o, x), OwnerRelY(o, y), OwnerRelZ(o, z);
    if rx == a && ry == b && rz == c {
      VolumeInTable(o, x, y, z);
      assert OwnerSlot(o, x, y, z) == LocalSectionIndex(a, b, c);
      assert InClip(ctx.volume, sec.position, x, y, z);
    }
  }

  /** Unpacking the section at slot (a, b, c) advances copyData by one slot. */
  lemma CopyStep(ctx: RenderContext, s: seq<BlockState>, s': seq<BlockState>, a: nat, b: nat, c: nat, sec: ClonedSection)
    requires a < 3 && b < 3 && c < 3
    requires Copied(ctx, s, a, b, c)
    requires ctx.sections[LocalSectionIndex(a, b, c)] == Some(sec)
    requires UnpackResult(s', s, ctx.volume, sec)
    ensures Copied(ctx, s', a, b, c + 1)
  {
    forall x, y, z | InBox(ctx.volume, x, y, z) &&
        SlotBefore(OwnerRelX(ctx.origin, x), OwnerRelY(ctx.origin, y), OwnerRelZ(ctx.origin, z), a, b, c + 1)
      ensures s'[BlockIndex(ctx.volume, x, y, z)] == OwnerBlock(ctx, x, y, z)
    {
      var k := BlockIndex(ctx.volume, x, y, z);
      CopyStepAt(ctx, a, b, c, sec, x, y, z, s[k], s'[k]);
    }
  }

  /** The slot coordinates of a block of the volume are all below 3. */
  lemma OwnerRelInRange(ctx: RenderContext, x: int, y: int, z: int)
    requires ValidContext(ctx) && InBox(ctx.volume, x, y, z)
    ensures 0 <= OwnerRelX(ctx.origin, x) < 3
    ensures 0 <= OwnerRelY(ctx.origin, y) < 3
    ensures 0 <= OwnerRelZ(ctx.origin, z) < 3
  {
    VolumeInTable(ctx.origin, x, y, z);
    RelativeAxis(ctx.origin.x, x);
    RelativeAxis(ctx.origin.y, y);
    RelativeAxis(ctx.origin.z, z);
  }

  /** Passing the end of the z loop (resp. the y loop) is the start of the next
      y (resp. the next x). */
  lemma CopyCarry(ctx: RenderContext, s: seq<BlockState>, a: int, b: int)
    ensures Copied(ctx, s, a, b, 3) <==> Copied(ctx, s, a, b + 1, 0)
    ensures Copied(ctx, s, a, 3, 0) <==> Copied(ctx, s, a + 1, 0, 0)
  {
    if ValidContext(ctx) {
      forall x, y, z | InBox(ctx.volume, x, y, z)
        ensures 0 <= OwnerRelY(ctx.origin, y) < 3 && 0 <= OwnerRelZ(ctx.origin, z) < 3
      {
        OwnerRelInRange(ctx, x, y, z);
      }
    }
  }

  /** The dense array of a finished snapshot of `ctx`: every block of the volume
      holds the block of the section that contains it. */
  ghost predicate Filled(ctx: RenderContext, s: seq<BlockState>)
  {
    && ValidContext(ctx) && |s| == BlockCount
    && forall x, y, z :: InBox(ctx.volume, x, y, z) ==>
         s[BlockIndex(ctx.volume, x, y, z)] == OwnerBlock(ctx, x, y, z)
  }

  /** Once all 27 slots are unpacked, the snapshot is complete. */
  lemma CopyDone(ctx: RenderContext, s: seq<BlockState>)
    requires Copied(ctx, s, 3, 0, 0)
    ensures Filled(ctx, s)
  {
    forall x, y, z | InBox(ctx.volume, x, y, z)
      ensures s[BlockIndex(ctx.volume, x, y, z)] == OwnerBlock(ctx, x, y, z)
    {
      OwnerRelInRange(ctx, x, y, z);
    }
  }

  /** Before the first slot nothing is claimed. */
  lemma CopyStart(ctx: RenderContext, s: seq<BlockState>)
    requires ValidContext(ctx) && |s| == BlockCount
    ensures Copied(ctx, s, 0, 0, 0)
  {
    forall x, y, z | InBox(ctx.volume, x, y, z)
      ensures 0 <= OwnerRelX(ctx.origin, x)
    {
      OwnerRelInRange(ctx, x, y, z);
    }
  }
}
