/** Partition planning: how many points each rank handles, and how large the
    root's buffer must be for the scatter and gather of those chunks. */
module Partition {
  import opened Arithmetic

  /** The per-rank chunk: the total divided by the number of ranks, plus one when
      the division leaves a remainder, i.e. ceil(total / world). */
  function ChunkSize(total: nat, world: nat): (size: nat)
    requires world >= 1
    ensures world * size >= total
    ensures size > 0 ==> world * (size - 1) < total
  {
    var q := total / world;
    var size := q + (if total % world > 0 then 1 else 0);
    assert total == world * q + total % world;
    assert world * size == world * q + (if total % world > 0 then world else 0);
    size
  }

  /** No smaller chunk covers every point, so the chunk is the ceiling. */
  lemma ChunkSizeLeast(total: nat, world: nat, c: nat)
    requires world >= 1
    requires world * c >= total
    ensures ChunkSize(total, world) <= c
  {
    var size := ChunkSize(total, world);
    if c < size {
      MulMonotone(c, size - 1, world);
      assert false;
    }
  }

  /** The chunks cover exactly the points iff the ranks divide the total evenly;
      otherwise fewer than `world` padding slots are added. */
  lemma ChunkPadding(total: nat, world: nat)
    requires world >= 1
    ensures world * ChunkSize(total, world) - total < world
    ensures world * ChunkSize(total, world) == total <==> total % world == 0
  {
    var q := total / world;
    assert total == world * q + total % world;
    var size := ChunkSize(total, world);
    assert world * size == world * q + (if total % world > 0 then world else 0);
  }

  /** The root buffer as `initialize` allocates it: `max_points` slots, whatever
      the chunk layout turns out to be. */
  function AllocatedRootCapacity(maxPoints: nat, total: nat, world: nat): (cap: nat)
    requires world >= 1
    ensures cap == maxPoints
  {
    maxPoints
  }

  /** With a full file (total == max_points) the scatter reads, and the gather
      writes, past the allocated root buffer exactly when the ranks do not divide
      max_points evenly. */
  lemma AllocatedRootOverrun(maxPoints: nat, world: nat)
    requires world >= 1
    ensures world * ChunkSize(maxPoints, world) > AllocatedRootCapacity(maxPoints, maxPoints, world)
            <==> maxPoints % world != 0
  {
    ChunkPadding(maxPoints, world);
  }

  /** The default 5000-point capacity filled to the brim and run on 3 ranks:
      3 * 1667 = 5001 slots are scattered from a 5000-slot buffer. */
  lemma AllocatedRootOverrunExample()
    ensures ChunkSize(5000, 3) == 1667
    ensures 3 * ChunkSize(5000, 3) > AllocatedRootCapacity(5000, 5000, 3)
  {
  }

  /** The root buffer as it must be allocated: `max_points` slots, or more when
      the chunks span more than that. */
  function RootCapacity(maxPoints: nat, total: nat, world: nat): (cap: nat)
    requires world >= 1
    ensures cap >= maxPoints
    ensures cap >= world * ChunkSize(total, world)
    ensures cap == maxPoints || cap == world * ChunkSize(total, world)
  {
    var span := world * ChunkSize(total, world);
    if span > maxPoints then span else maxPoints
  }

  /** The corrected allocation differs from the original only where the original
      would overrun. */
  lemma RootCapacityAgrees(maxPoints: nat, total: nat, world: nat)
    requires world >= 1
    ensures RootCapacity(maxPoints, total, world) == AllocatedRootCapacity(maxPoints, total, world)
            <==> world * ChunkSize(total, world) <= maxPoints
  {
  }
}
