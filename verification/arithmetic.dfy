/** Facts about products of naturals used to lay chunks of equal size end to end. */
module Arithmetic {

  /** Block r of `count` elements, r < world, ends within world*count. */
  lemma BlockEnd(r: nat, count: nat, world: nat)
    requires r < world
    ensures 0 <= r * count
    ensures r * count + count <= world * count
  {
    MulMonotone(r + 1, world, count);
    assert (r + 1) * count == r * count + count;
  }

  lemma BlockInBounds(r: nat, j: nat, count: nat, world: nat)
    requires r < world && j < count
    ensures r * count + j < world * count
  {
    BlockEnd(r, count, world);
  }

  /** Every index below world*count lies in block i / count at offset i % count. */
  lemma Decompose(i: nat, count: nat, world: nat)
    requires i < world * count
    ensures count > 0
    ensures 0 <= i / count < world && 0 <= i % count < count
    ensures i == (i / count) * count + i % count
  {
    var q := i / count;
    if q >= world {
      MulMonotone(world, q, count);
      assert false;
    }
  }

  lemma MulMonotone(a: nat, b: nat, c: nat)
    requires a <= b
    ensures a * c <= b * c
  {
    assert b * c == a * c + (b - a) * c;
  }
}
