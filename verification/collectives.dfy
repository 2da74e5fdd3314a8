/** The MPI collectives the k-means code uses, as pure data movement over the
    buffers of all ranks at once (rank r is index r, the root is rank 0):
    MPI_Scatter (section 5.6 of MPI-3.1), MPI_Gather (section 5.5),
    MPI_Bcast (section 5.4), MPI_Reduce with MPI_SUM (section 5.9) and
    MPI_Barrier (section 5.3). */
module Collectives {
  import opened Arithmetic

  /** MPI_Scatter with `count` elements per rank: rank r receives elements
      [r*count, (r+1)*count) of the root's send buffer, the root included. The
      standard requires the root buffer to hold count*world elements. */
  function Scatter<T>(root: seq<T>, count: nat, world: nat): (parts: seq<seq<T>>)
    requires world * count <= |root|
    ensures |parts| == world
    ensures forall r :: 0 <= r < world ==> |parts[r]| == count
  {
    seq(world, r requires 0 <= r < world =>
      seq(count, j requires 0 <= j < count =>
        BlockInBounds(r, j, count, world);
        root[r * count + j]))
  }

  /** Rank r's chunk holds exactly the root's elements r*count + j. */
  lemma ScatterAt<T>(root: seq<T>, count: nat, world: nat, r: nat, j: nat)
    requires world * count <= |root|
    requires r < world && j < count
    ensures r * count + j < |root|
    ensures Scatter(root, count, world)[r][j] == root[r * count + j]
  {
    BlockInBounds(r, j, count, world);
  }

  /** The first `count` elements of each rank's buffer, concatenated in rank order. */
  function Concat<T>(parts: seq<seq<T>>, count: nat): (flat: seq<T>)
    requires forall r :: 0 <= r < |parts| ==> count <= |parts[r]|
  {
    if |parts| == 0 then [] else parts[0][..count] + Concat(parts[1..], count)
  }

  lemma {:induction false} ConcatLength<T>(parts: seq<seq<T>>, count: nat)
    requires forall r :: 0 <= r < |parts| ==> count <= |parts[r]|
    ensures |Concat(parts, count)| == |parts| * count
  {
    if |parts| > 0 {
      ConcatLength(parts[1..], count);
      assert |parts| * count == count + (|parts| - 1) * count;
    }
  }

  lemma {:induction false} ConcatAt<T>(parts: seq<seq<T>>, count: nat, r: nat, j: nat)
    requires forall r :: 0 <= r < |parts| ==> count <= |parts[r]|
    requires r < |parts| && j < count
    ensures r * count + j < |Concat(parts, count)|
    ensures Concat(parts, count)[r * count + j] == parts[r][j]
  {
    ConcatLength(parts, count);
    BlockInBounds(r, j, count, |parts|);
    if r > 0 {
      ConcatAt(parts[1..], count, r - 1, j);
      assert r * count + j == count + ((r - 1) * count + j);
    }
  }

  /** MPI_Gather with `count` elements per rank into the root's receive buffer
      `recv`: block r of the buffer becomes rank r's first `count` elements and the
      rest of the buffer is untouched. The standard requires the receive buffer to
      hold count*world elements. */
  function Gather<T>(parts: seq<seq<T>>, count: nat, recv: seq<T>): (r: seq<T>)
    requires forall r :: 0 <= r < |parts| ==> count <= |parts[r]|
    requires |parts| * count <= |recv|
    ensures |r| == |recv|
  {
    ConcatLength(parts, count);
    Concat(parts, count) + recv[|parts| * count..]
  }

  /** Block r of the gathered buffer is rank r's chunk. */
  lemma GatherAt<T>(parts: seq<seq<T>>, count: nat, recv: seq<T>, r: nat, j: nat)
    requires forall r :: 0 <= r < |parts| ==> count <= |parts[r]|
    requires |parts| * count <= |recv|
    requires r < |parts| && j < count
    ensures r * count + j < |recv|
    ensures Gather(parts, count, recv)[r * count + j] == parts[r][j]
  {
    ConcatAt(parts, count, r, j);
    var flat := Concat(parts, count);
    assert Gather(parts, count, recv) == flat + recv[|parts| * count..];
    assert (flat + recv[|parts| * count..])[r * count + j] == flat[r * count + j];
  }

  /** Past the gathered blocks the receive buffer is untouched. */
  lemma GatherAbove<T>(parts: seq<seq<T>>, count: nat, recv: seq<T>)
    requires forall r :: 0 <= r < |parts| ==> count <= |parts[r]|
    requires |parts| * count <= |recv|
    ensures forall i :: |parts| * count <= i < |recv| ==> Gather(parts, count, recv)[i] == recv[i]
  {
    ConcatLength(parts, count);
  }

  /** Gathering chunks that came straight from a scatter of the same buffer gives
      that buffer back. */
  lemma GatherScatter<T>(root: seq<T>, count: nat, world: nat)
    requires world * count <= |root|
    ensures Gather(Scatter(root, count, world), count, root) == root
  {
    var parts := Scatter(root, count, world);
    var g := Gather(parts, count, root);
    GatherAbove(parts, count, root);
    forall i | 0 <= i < world * count
      ensures g[i] == root[i]
    {
      Decompose(i, count, world);
      ScatterAt(root, count, world, i / count, i % count);
      GatherAt(parts, count, root, i / count, i % count);
    }
  }

  /** Scattering a gathered buffer hands every rank back its own chunk. */
  lemma ScatterGather<T>(parts: seq<seq<T>>, count: nat, recv: seq<T>)
    requires forall r :: 0 <= r < |parts| ==> |parts[r]| == count
    requires |parts| * count <= |recv|
    ensures Scatter(Gather(parts, count, recv), count, |parts|) == parts
  {
    var g := Gather(parts, count, recv);
    var s := Scatter(g, count, |parts|);
    forall r | 0 <= r < |parts|
      ensures s[r] == parts[r]
    {
      forall j | 0 <= j < count
        ensures s[r][j] == parts[r][j]
      {
        ScatterAt(g, count, |parts|, r, j);
        GatherAt(parts, count, recv, r, j);
      }
    }
  }

  /** Integer sum, the MPI_SUM operation. */
  function Sum(xs: seq<int>): int
  {
    if |xs| == 0 then 0 else Sum(xs[..|xs| - 1]) + xs[|xs| - 1]
  }

  lemma {:induction false} SumAppend(xs: seq<int>, ys: seq<int>)
    ensures Sum(xs + ys) == Sum(xs) + Sum(ys)
    decreases |ys|
  {
    if |ys| > 0 {
      SumAppend(xs, ys[..|ys| - 1]);
      assert (xs + ys)[..|xs + ys| - 1] == xs + ys[..|ys| - 1];
    } else {
      assert xs + ys == xs;
    }
  }

  /** MPI_Reduce with MPI_SUM to the root: the root's receive value becomes the
      sum of every rank's contribution, and every other rank's receive variable
      keeps what it held before the call. */
  function ReduceSum(contributions: seq<int>, recv: seq<int>): (r: seq<int>)
    requires |contributions| == |recv| > 0
    ensures |r| == |recv|
    ensures r[0] == Sum(contributions)
    ensures forall k :: 0 < k < |recv| ==> r[k] == recv[k]
  {
    recv[0 := Sum(contributions)]
  }

  /** MPI_Bcast from the root: every rank's copy becomes the root's. */
  function Bcast<T>(copies: seq<T>): (r: seq<T>)
    requires |copies| > 0
    ensures |r| == |copies|
    ensures forall k :: 0 <= k < |r| ==> r[k] == copies[0]
  {
    seq(|copies|, _ => copies[0])
  }

  /** MPI_Barrier: every rank waits until all have arrived; it is a pure
      synchronisation point, so no rank's buffers change. */
  function Barrier<T>(w: seq<T>): (r: seq<T>)
    ensures |r| == |w| && forall i :: 0 <= i < |w| ==> r[i] == w[i]
  {
    w
  }
}
