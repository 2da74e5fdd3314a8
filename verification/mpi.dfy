/** The distributed driver of src/kmeans_mpi.c: every rank's state side by side,
    advanced in lockstep by the collectives of module Collectives. Rank 0 is the
    root; it alone holds the loaded dataset, recomputes centroids and decides
    termination. */
module KmeansMpi {
  import opened Wrappers
  import opened Points
  import opened Distance
  import opened Sequential
  import opened Collectives
  import opened Partition
  import opened Arithmetic
  import opened Config
  import SimpleDriver

  /** One rank's globals: `main_dataset` (only the root's is ever filled),
      `node_dataset`, `node_centroids`, `num_points_node` and `done`. */
  datatype Node = Node(main: PointSet, local: PointSet, centroids: Centroids, chunk: nat, done: bool)

  /** The layout `initialize` sets up and every later step keeps: all ranks agree
      on the chunk, each holds a chunk-sized node dataset and a centroid set of the
      root's size, and the root's dataset both covers its points with the chunks
      and is large enough to scatter them from and gather them into. */
  predicate Laid(w: seq<Node>)
  {
    && |w| >= 1
    && w[0].main.Valid()
    && w[0].main.n <= |w| * w[0].chunk <= w[0].main.Capacity()
    && forall r :: 0 <= r < |w| ==>
         && w[r].chunk == w[0].chunk
         && w[r].local.Valid() && w[r].local.n == w[0].chunk && w[r].local.Capacity() == w[0].chunk
         && w[r].centroids.Valid() && w[r].centroids.K() == w[0].centroids.K()
  }

  /** Every rank holds the root's centroids. */
  predicate CentroidsAgree(w: seq<Node>)
    requires |w| >= 1
  {
    forall r :: 0 <= r < |w| ==> w[r].centroids == w[0].centroids
  }

  /** Every rank holds the root's `done` flag. */
  predicate DoneAgrees(w: seq<Node>)
    requires |w| >= 1
  {
    forall r :: 0 <= r < |w| ==> w[r].done == w[0].done
  }

  /** `allocate_pointset_points` (not part of this model) is taken to make room for
      `size` points and record `size` as the point count; slot i holds whatever
      the allocation left there, `stale(i)`. */
  function Allocate(size: nat, stale: nat -> Point): (ps: PointSet)
    ensures ps.Valid() && ps.n == size && ps.Capacity() == size
  {
    FromPoints([], size, stale).(n := size)
  }

  /** Every rank's allocation of its node dataset: rank r makes room for
      `sizes[r]` points over memory holding `stale(r)`. */
  function AllocateNodes(sizes: seq<nat>, stale: nat -> nat -> Point): (bufs: seq<PointSet>)
    ensures |bufs| == |sizes|
    ensures forall r :: 0 <= r < |sizes| ==>
              bufs[r].Valid() && bufs[r].n == sizes[r] && bufs[r].Capacity() == sizes[r]
  {
    var bufs := seq(|sizes|, r requires 0 <= r < |sizes| => Allocate(sizes[r], stale(r)));
    assert forall r :: 0 <= r < |sizes| ==> bufs[r] == Allocate(sizes[r], stale(r));
    bufs
  }

  /** A rank's state before `initialize`: the globals are zero. */
  function Blank(): Node
  {
    Node(PointSet(0, [], [], []), PointSet(0, [], [], []), Centroids([], []), 0, false)
  }

  /** What `initialize` leaves: the ranks and the root's metrics. */
  datatype Setup = Setup(nodes: seq<Node>, metrics: Metrics)

  /** `initialize` on `world` ranks, given the points `read_csv` loaded into the
      root's buffer. The root's buffer is sized with the corrected allocation
      (Partition.RootCapacity), the root computes the ceiling chunk and broadcasts
      it, and every rank allocates a node dataset of exactly that chunk. The
      root's unused slots hold `rootStale`, rank r's node slots `nodeStale(r)`. */
  function Initialize(loaded: seq<Point>, maxPoints: nat, world: nat,
                      rootStale: nat -> Point, nodeStale: nat -> nat -> Point, metrics: Metrics)
    : (s: Setup)
    requires world >= 1
    requires |loaded| <= maxPoints
    ensures Laid(s.nodes) && |s.nodes| == world
    ensures s.nodes[0].main.n == |loaded|
    ensures forall i :: 0 <= i < |loaded| ==> s.nodes[0].main.At(i) == loaded[i]
    ensures forall r :: 0 <= r < world ==>
              s.nodes[r].chunk == ChunkSize(|loaded|, world) && !s.nodes[r].done && s.nodes[r].centroids.K() == 0
    ensures s.metrics.numProcessors == world
    ensures s.metrics == metrics.(numProcessors := s.metrics.numProcessors)
  {
    var total := |loaded|;
    var main := FromPoints(loaded, RootCapacity(maxPoints, total, world), rootStale);
    var chunks := Bcast(seq(world, r => if r == 0 then ChunkSize(total, world) else Blank().chunk));
    var locals := AllocateNodes(chunks, nodeStale);
    var nodes := seq(world, r requires 0 <= r < world =>
      Node(if r == 0 then main else Blank().main, locals[r], Centroids([], []), chunks[r], false));
    Setup(nodes, metrics.(numProcessors := world))
  }

  /** Rank-ordered column views of the node datasets. */
  function LocalXs(w: seq<Node>): (parts: seq<seq<real>>)
    ensures |parts| == |w| && forall r :: 0 <= r < |w| ==> parts[r] == w[r].local.xs
  {
    seq(|w|, r requires 0 <= r < |w| => w[r].local.xs)
  }

  function LocalYs(w: seq<Node>): (parts: seq<seq<real>>)
    ensures |parts| == |w| && forall r :: 0 <= r < |w| ==> parts[r] == w[r].local.ys
  {
    seq(|w|, r requires 0 <= r < |w| => w[r].local.ys)
  }

  function LocalIds(w: seq<Node>): (parts: seq<seq<int>>)
    ensures |parts| == |w| && forall r :: 0 <= r < |w| ==> parts[r] == w[r].local.ids
  {
    seq(|w|, r requires 0 <= r < |w| => w[r].local.ids)
  }

  /** `mpi_scatter_dataset`: the x, y and cluster-id columns of the root's dataset
      are each scattered in chunks into the node datasets. */
  function ScatterDataset(w: seq<Node>): (s: seq<Node>)
    requires Laid(w)
    ensures Laid(s) && |s| == |w|
    ensures forall r :: 0 <= r < |w| ==> s[r] == w[r].(local := s[r].local)
  {
    var c := w[0].chunk;
    var m := w[0].main;
    var xs := Scatter(m.xs, c, |w|);
    var ys := Scatter(m.ys, c, |w|);
    var ids := Scatter(m.ids, c, |w|);
    seq(|w|, r requires 0 <= r < |w| => w[r].(local := PointSet(c, xs[r], ys[r], ids[r])))
  }

  /** Slot j of rank r's node dataset is slot r*chunk + j of the root's dataset,
      in all three columns. */
  lemma ScatterDatasetAt(w: seq<Node>, r: nat, j: nat)
    requires Laid(w) && r < |w| && j < w[0].chunk
    ensures r * w[0].chunk + j < w[0].main.Capacity()
    ensures var s := ScatterDataset(w); var i := r * w[0].chunk + j;
            && s[r].local.xs[j] == w[0].main.xs[i]
            && s[r].local.ys[j] == w[0].main.ys[i]
            && s[r].local.ids[j] == w[0].main.ids[i]
  {
    var c := w[0].chunk;
    var m := w[0].main;
    ScatterAt(m.xs, c, |w|, r, j);
    ScatterAt(m.ys, c, |w|, r, j);
    ScatterAt(m.ids, c, |w|, r, j);
  }

  /** `mpi_gather_dataset`: the three node-dataset columns are gathered in rank
      order into the root's dataset; no other rank changes. */
  function GatherDataset(w: seq<Node>): (g: seq<Node>)
    requires Laid(w)
    ensures Laid(g) && |g| == |w|
    ensures forall r :: 1 <= r < |w| ==> g[r] == w[r]
    ensures g[0] == w[0].(main := g[0].main)
    ensures g[0].main.n == w[0].main.n && g[0].main.Capacity() == w[0].main.Capacity()
  {
    var c := w[0].chunk;
    var m := w[0].main;
    var main := m.(xs := Gather(LocalXs(w), c, m.xs), ys := Gather(LocalYs(w), c, m.ys),
                   ids := Gather(LocalIds(w), c, m.ids));
    w[0 := w[0].(main := main)]
  }

  /** Slot r*chunk + j of the gathered root dataset is slot j of rank r's node
      dataset, in all three columns. */
  lemma GatherDatasetAt(w: seq<Node>, r: nat, j: nat)
    requires Laid(w) && r < |w| && j < w[0].chunk
    ensures r * w[0].chunk + j < w[0].main.Capacity()
    ensures var g := GatherDataset(w); var i := r * w[0].chunk + j;
            && g[0].main.xs[i] == w[r].local.xs[j]
            && g[0].main.ys[i] == w[r].local.ys[j]
            && g[0].main.ids[i] == w[r].local.ids[j]
  {
    var c := w[0].chunk;
    var m := w[0].main;
    GatherAt(LocalXs(w), c, m.xs, r, j);
    GatherAt(LocalYs(w), c, m.ys, r, j);
    GatherAt(LocalIds(w), c, m.ids, r, j);
  }

  /** The root's slots past world*chunk are not written by the gather. */
  lemma GatherDatasetAbove(w: seq<Node>, i: nat)
    requires Laid(w) && |w| * w[0].chunk <= i < w[0].main.Capacity()
    ensures var g := GatherDataset(w);
            && g[0].main.xs[i] == w[0].main.xs[i]
            && g[0].main.ys[i] == w[0].main.ys[i]
            && g[0].main.ids[i] == w[0].main.ids[i]
  {
    var c := w[0].chunk;
    var m := w[0].main;
    GatherAbove(LocalXs(w), c, m.xs);
    GatherAbove(LocalYs(w), c, m.ys);
    GatherAbove(LocalIds(w), c, m.ids);
  }

  /** Gathering straight after a scatter leaves every rank as it was, the root's
      dataset included. */
  lemma GatherAfterScatter(w: seq<Node>)
    requires Laid(w)
    ensures var g := GatherDataset(ScatterDataset(w));
            g[0].main == w[0].main && forall r :: 1 <= r < |w| ==> g[r].main == w[r].main
  {
    var c := w[0].chunk;
    var m := w[0].main;
    var s := ScatterDataset(w);
    var g := GatherDataset(s);
    assert LocalXs(s) == Scatter(m.xs, c, |w|);
    assert LocalYs(s) == Scatter(m.ys, c, |w|);
    assert LocalIds(s) == Scatter(m.ids, c, |w|);
    GatherScatter(m.xs, c, |w|);
    GatherScatter(m.ys, c, |w|);
    GatherScatter(m.ids, c, |w|);
  }

  /** One rank's `simple_assign_clusters` over its whole node dataset with its own centroids. */
  function AssignNode(n: Node): (a: Node)
    requires n.local.Valid() && n.centroids.Valid()
  {
    n.(local := Assigned(n.local, n.centroids))
  }

  /** The count that rank's `simple_assign_clusters` returns. */
  function NodeChanges(n: Node): int
    requires n.local.Valid() && n.centroids.Valid()
  {
    Changes(n.local.ids, AssignedIds(n.local, n.centroids), 0, n.local.n)
  }

  function AssignNodes(s: seq<Node>): (a: seq<Node>)
    requires Laid(s)
    ensures Laid(a) && |a| == |s|
    ensures forall r :: 0 <= r < |s| ==> a[r] == AssignNode(s[r])
  {
    seq(|s|, r requires 0 <= r < |s| => AssignNode(s[r]))
  }

  function NodeCounts(s: seq<Node>): (counts: seq<int>)
    requires Laid(s)
    ensures |counts| == |s|
    ensures forall r :: 0 <= r < |s| ==> counts[r] == NodeChanges(s[r])
  {
    seq(|s|, r requires 0 <= r < |s| => NodeChanges(s[r]))
  }

  /** The ranks after a step, and the value each rank's call returned. */
  datatype Round = Round(nodes: seq<Node>, returned: seq<int>)

  /** `assign_clusters`: scatter, assign every slot of every chunk locally, sum the
      local counts onto the root with MPI_Reduce (a non-root rank's
      `total_reassignments` keeps its initial 0), then gather. */
  function AssignClusters(w: seq<Node>): (round: Round)
    requires Laid(w)
    ensures Laid(round.nodes) && |round.nodes| == |w| && |round.returned| == |w|
    ensures forall r :: 0 <= r < |w| ==>
              && round.nodes[r].centroids == w[r].centroids
              && round.nodes[r].chunk == w[r].chunk
              && round.nodes[r].done == w[r].done
    ensures forall r :: 1 <= r < |w| ==> round.nodes[r].main == w[r].main && round.returned[r] == 0
    ensures round.nodes[0].main.n == w[0].main.n
  {
    var s := ScatterDataset(w);
    Round(GatherDataset(AssignNodes(s)), ReduceSum(NodeCounts(s), seq(|w|, _ => 0)))
  }

  /** The intermediate states of one assignment round: after the scatter, after
      the local assignments, and after the gather. */
  predicate Stages(w: seq<Node>, s: seq<Node>, a: seq<Node>, g: seq<Node>)
  {
    && Laid(w)
    && s == ScatterDataset(w)
    && a == AssignNodes(s)
    && g == GatherDataset(a)
  }

  /** What happens to root slot r*chunk + j in one assignment round: it is read
      by rank r as its slot j and comes back holding that slot's nearest centroid. */
  lemma AssignAt(w: seq<Node>, s: seq<Node>, a: seq<Node>, g: seq<Node>, r: nat, j: nat)
    requires Stages(w, s, a, g) && CentroidsAgree(w) && r < |w| && j < w[0].chunk
    ensures r * w[0].chunk + j < w[0].main.Capacity()
    ensures var m0 := w[0].main; var m1 := g[0].main; var i := r * w[0].chunk + j;
            && s[r].local.ids[j] == m0.ids[i]
            && a[r].local.ids[j] == m1.ids[i]
            && m1.ids[i] == Nearest(m0.xs[i], m0.ys[i], w[0].centroids)
            && m1.xs[i] == m0.xs[i] && m1.ys[i] == m0.ys[i]
  {
    ScatterDatasetAt(w, r, j);
    GatherDatasetAt(a, r, j);
  }

  /** The change counts of the `world` consecutive blocks of `c` slots. */
  function BlockChanges(a: seq<int>, b: seq<int>, c: nat, world: nat): (counts: seq<int>)
    requires world * c <= |a| && world * c <= |b|
    ensures |counts| == world
  {
    seq(world, r requires 0 <= r < world => BlockEnd(r, c, world); Changes(a, b, r * c, r * c + c))
  }

  /** Summing per-block change counts counts the changes over all blocks. */
  lemma {:induction false} SumOfBlocks(a: seq<int>, b: seq<int>, c: nat, world: nat)
    requires world * c <= |a| && world * c <= |b|
    ensures Sum(BlockChanges(a, b, c, world)) == Changes(a, b, 0, world * c)
  {
    if world > 0 {
      var k := world - 1;
      BlockEnd(k, c, world);
      assert k * c + c == world * c;
      var counts := BlockChanges(a, b, c, world);
      forall r | 0 <= r < k
        ensures counts[r] == BlockChanges(a, b, c, k)[r]
      {
        BlockEnd(r, c, k);
      }
      assert counts[..k] == BlockChanges(a, b, c, k);
      SumOfBlocks(a, b, c, k);
      ChangesSplit(a, b, 0, k * c, world * c);
    }
  }

  /** The root's coordinates survive an assignment round; every slot below
      world*chunk comes back holding its nearest centroid and the others are untouched. */
  lemma AssignRootSlots(w: seq<Node>)
    requires Laid(w) && CentroidsAgree(w)
    ensures var c := w[0].chunk; var m0 := w[0].main; var cs := w[0].centroids;
            var m1 := GatherDataset(AssignNodes(ScatterDataset(w)))[0].main;
            && m1.xs == m0.xs && m1.ys == m0.ys
            && (forall i :: 0 <= i < |w| * c ==> m1.ids[i] == Nearest(m0.xs[i], m0.ys[i], cs))
            && (forall i :: |w| * c <= i < |m0.ids| ==> m1.ids[i] == m0.ids[i])
  {
    var c := w[0].chunk;
    var m0 := w[0].main;
    var s := ScatterDataset(w);
    var a := AssignNodes(s);
    var g := GatherDataset(a);
    var m1 := g[0].main;
    forall i | 0 <= i < |w| * c
      ensures m1.ids[i] == Nearest(m0.xs[i], m0.ys[i], w[0].centroids)
      ensures m1.xs[i] == m0.xs[i] && m1.ys[i] == m0.ys[i]
    {
      Decompose(i, c, |w|);
      AssignAt(w, s, a, g, i / c, i % c);
    }
    forall i | |w| * c <= i < |m0.ids|
      ensures m1.ids[i] == m0.ids[i] && m1.xs[i] == m0.xs[i] && m1.ys[i] == m0.ys[i]
    {
      GatherDatasetAbove(a, i);
    }
  }

  /** Scattering `before` into chunks, changing each chunk, and gathering the
      results: the chunk-wise change counts, in rank order, are the per-block
      change counts between `before` and the gathered buffer. */
  lemma ChunkChanges(before: seq<int>, after: seq<seq<int>>, recv: seq<int>, c: nat, world: nat)
    requires world * c <= |before| && world * c <= |recv|
    requires |after| == world && forall r :: 0 <= r < world ==> |after[r]| == c
    ensures var parts := Scatter(before, c, world); var g := Gather(after, c, recv);
            && world * c <= |g|
            && seq(world, r requires 0 <= r < world => Changes(parts[r], after[r], 0, c))
               == BlockChanges(before, g, c, world)
  {
    var parts := Scatter(before, c, world);
    var g := Gather(after, c, recv);
    forall r | 0 <= r < world
      ensures Changes(parts[r], after[r], 0, c) == BlockChanges(before, g, c, world)[r]
    {
      BlockEnd(r, c, world);
      forall j | 0 <= j < c
        ensures parts[r][j] == before[r * c + j] && after[r][j] == g[r * c + j]
      {
        ScatterAt(before, c, world, r, j);
        GatherAt(after, c, recv, r, j);
      }
      ChangesShift(before, g, parts[r], after[r], r * c, c);
    }
  }

  /** The local counts, in rank order, are the per-block change counts of the root's ids. */
  lemma CountsAreBlocks(w: seq<Node>)
    requires Laid(w) && CentroidsAgree(w)
    ensures var m0 := w[0].main; var s := ScatterDataset(w);
            var m1 := GatherDataset(AssignNodes(s))[0].main;
            NodeCounts(s) == BlockChanges(m0.ids, m1.ids, w[0].chunk, |w|)
  {
    var c := w[0].chunk;
    var m0 := w[0].main;
    var s := ScatterDataset(w);
    var a := AssignNodes(s);
    assert LocalIds(s) == Scatter(m0.ids, c, |w|);
    assert a[0].main == m0;
    ChunkChanges(m0.ids, LocalIds(a), m0.ids, c, |w|);
  }

  /** The reduced count is the number of root ids the round changed below world*chunk. */
  lemma AssignRootCount(w: seq<Node>)
    requires Laid(w) && CentroidsAgree(w)
    ensures var m0 := w[0].main; var s := ScatterDataset(w);
            var m1 := GatherDataset(AssignNodes(s))[0].main;
            Sum(NodeCounts(s)) == Changes(m0.ids, m1.ids, 0, |w| * w[0].chunk)
  {
    var m0 := w[0].main;
    var m1 := GatherDataset(AssignNodes(ScatterDataset(w)))[0].main;
    CountsAreBlocks(w);
    SumOfBlocks(m0.ids, m1.ids, w[0].chunk, |w|);
  }

  /** One assignment round as the root sees it: every slot below world*chunk,
      padding included, now holds its nearest centroid, the coordinates and the
      slots past world*chunk are as before, and the root's return value is the
      number of ids that changed in those world*chunk slots. */
  lemma AssignClustersRoot(w: seq<Node>)
    requires Laid(w) && CentroidsAgree(w)
    ensures var c := w[0].chunk; var m0 := w[0].main; var cs := w[0].centroids;
            var round := AssignClusters(w); var m1 := round.nodes[0].main;
            && m1.n == m0.n && m1.xs == m0.xs && m1.ys == m0.ys && |m1.ids| == |m0.ids|
            && (forall i :: 0 <= i < |w| * c ==> m1.ids[i] == Nearest(m0.xs[i], m0.ys[i], cs))
            && (forall i :: |w| * c <= i < |m0.ids| ==> m1.ids[i] == m0.ids[i])
            && round.returned[0] == Changes(m0.ids, m1.ids, 0, |w| * c)
  {
    AssignRootSlots(w);
    AssignRootCount(w);
  }

  /** A round moves no point: the root's coordinates come back as they went out. */
  lemma AssignClustersKeepsPoints(w: seq<Node>)
    requires Laid(w) && CentroidsAgree(w)
    ensures AssignClusters(w).nodes[0].main.xs == w[0].main.xs
    ensures AssignClusters(w).nodes[0].main.ys == w[0].main.ys
  {
    AssignClustersRoot(w);
  }

  /** A dataset whose ids below `span` are all nearest agrees with the
      sequential assignment on its first n ids, and its count of changes up to
      `span` splits at n. */
  lemma NearestPrefix(m0: PointSet, m1: PointSet, cs: Centroids, span: nat, count: int)
    requires m0.Valid() && m1.Valid() && cs.Valid()
    requires m0.n <= span <= |m0.ids| && |m1.ids| == |m0.ids|
    requires forall i :: 0 <= i < span ==> m1.ids[i] == Nearest(m0.xs[i], m0.ys[i], cs)
    requires count == Changes(m0.ids, m1.ids, 0, span)
    ensures m1.ids[..m0.n] == AssignedIds(m0, cs)[..m0.n]
    ensures count == Changes(m0.ids, AssignedIds(m0, cs), 0, m0.n) + Changes(m0.ids, m1.ids, m0.n, span)
  {
    var seqIds := AssignedIds(m0, cs);
    assert forall j :: 0 <= j < m0.n ==> m1.ids[j] == seqIds[j];
    ChangesPrefixAgree(m0.ids, m1.ids, seqIds, m0.n, span);
  }

  /** Against the sequential pass over the root's points: the first n ids are
      what `simple_assign_clusters` gives the root's dataset, and the root's
      count is the sequential count plus the ids changed in the padding slots
      from n up to world*chunk. */
  lemma AssignClustersRefines(w: seq<Node>)
    requires Laid(w) && CentroidsAgree(w)
    ensures var m0 := w[0].main; var cs := w[0].centroids; var n := m0.n;
            var round := AssignClusters(w); var m1 := round.nodes[0].main;
            && m1.n == n && m1.xs == m0.xs && m1.ys == m0.ys
            && m1.ids[..n] == AssignedIds(m0, cs)[..n]
            && round.returned[0] == Changes(m0.ids, AssignedIds(m0, cs), 0, n)
                                    + Changes(m0.ids, m1.ids, n, |w| * w[0].chunk)
  {
    var round := AssignClusters(w);
    AssignClustersRoot(w);
    NearestPrefix(w[0].main, round.nodes[0].main, w[0].centroids, |w| * w[0].chunk, round.returned[0]);
  }

  /** No padding slot changes exactly when each already held its nearest id. */
  lemma PaddingUnchanged(m0: PointSet, m1: PointSet, cs: Centroids, span: nat)
    requires m0.Valid() && m1.Valid() && cs.Valid()
    requires m0.n <= span <= |m0.ids| && |m1.ids| == |m0.ids|
    requires forall i :: 0 <= i < span ==> m1.ids[i] == Nearest(m0.xs[i], m0.ys[i], cs)
    ensures Changes(m0.ids, m1.ids, m0.n, span) == 0 <==>
              forall i :: m0.n <= i < span ==> m0.ids[i] == Nearest(m0.xs[i], m0.ys[i], cs)
  {
    ChangesZeroIff(m0.ids, m1.ids, m0.n, span);
  }

  /** The padding slots are assigned and counted like real points: the root's
      count is never below the sequential count, and equals it exactly when
      every padding slot already held its nearest centroid. */
  lemma PaddingCounted(w: seq<Node>)
    requires Laid(w) && CentroidsAgree(w)
    ensures var m0 := w[0].main; var cs := w[0].centroids;
            var sequential := Changes(m0.ids, AssignedIds(m0, cs), 0, m0.n);
            var returned := AssignClusters(w).returned[0];
            && returned >= sequential
            && (returned == sequential <==>
                  forall i :: m0.n <= i < |w| * w[0].chunk ==> m0.ids[i] == Nearest(m0.xs[i], m0.ys[i], cs))
  {
    var round := AssignClusters(w);
    var span := |w| * w[0].chunk;
    AssignClustersRoot(w);
    NearestPrefix(w[0].main, round.nodes[0].main, w[0].centroids, span, round.returned[0]);
    PaddingUnchanged(w[0].main, round.nodes[0].main, w[0].centroids, span);
  }

  /** Two ranks with a chunk of one: the root has loaded one point (0, 0), already
      in the only cluster, and its second slot, the padding, holds (5, 5) with no
      cluster. */
  function PaddingRanks(): (w: seq<Node>)
    ensures Laid(w) && CentroidsAgree(w) && |w| == 2 && w[0].chunk == 1
    ensures w[0].main.n == 1 && w[0].main.ids == [0, NO_CLUSTER] && w[0].centroids.K() == 1
  {
    var cs := Centroids([0.0], [0.0]);
    var local := PointSet(1, [0.0], [0.0], [0]);
    [Node(PointSet(1, [0.0, 5.0], [0.0, 5.0], [0, NO_CLUSTER]), local, cs, 1, false),
     Node(Blank().main, local, cs, 1, false)]
  }

  /** On PaddingRanks the sequential pass counts no change, while the
      distributed round reports 1, so the loop runs a round the sequential
      driver would not. */
  lemma PaddingExample()
    ensures var w := PaddingRanks(); var m0 := w[0].main; var cs := w[0].centroids;
            && Changes(m0.ids, AssignedIds(m0, cs), 0, m0.n) == 0
            && AssignClusters(w).returned[0] == 1
  {
    var w := PaddingRanks();
    var m0 := w[0].main;
    var cs := w[0].centroids;
    NearestSpec(m0.xs[0], m0.ys[0], cs);
    NearestSpec(m0.xs[1], m0.ys[1], cs);
    assert AssignedIds(m0, cs)[0] == 0;
    AssignClustersRoot(w);
    var m1 := AssignClusters(w).nodes[0].main;
    assert m1.ids[0] == 0 && m1.ids[1] == 0;
  }

  /** `mpi_broadcast_centroids`: every rank's centroid arrays become the root's. */
  function BroadcastCentroids(w: seq<Node>): (b: seq<Node>)
    requires Laid(w)
    ensures Laid(b) && |b| == |w| && CentroidsAgree(b)
    ensures b[0] == w[0]
    ensures forall r :: 0 <= r < |w| ==> b[r] == w[r].(centroids := w[0].centroids)
  {
    var copies := Bcast(seq(|w|, r requires 0 <= r < |w| => w[r].centroids));
    seq(|w|, r requires 0 <= r < |w| => w[r].(centroids := copies[r]))
  }

  /** `calculate_centroids`: the root recomputes from its whole dataset, then
      broadcasts. Only the centroids change, on every rank. */
  function CalculateCentroids(w: seq<Node>): (c: seq<Node>)
    requires Laid(w) && IdsInRange(w[0].main, w[0].centroids.K())
    ensures Laid(c) && |c| == |w| && CentroidsAgree(c)
    ensures forall r :: 0 <= r < |w| ==> c[r] == w[r].(centroids := c[r].centroids)
    ensures c[0].centroids == Recomputed(w[0].main, w[0].centroids)
  {
    BroadcastCentroids(w[0 := w[0].(centroids := Recomputed(w[0].main, w[0].centroids))])
  }

  /** With at least one centroid, a round leaves every real point of the root
      with the id of an existing centroid, as the recomputation needs. */
  lemma AssignClustersIdsInRange(w: seq<Node>)
    requires Laid(w) && CentroidsAgree(w) && w[0].centroids.K() >= 1
    ensures IdsInRange(AssignClusters(w).nodes[0].main, w[0].centroids.K())
  {
    var m0 := w[0].main;
    var m1 := AssignClusters(w).nodes[0].main;
    AssignClustersRoot(w);
    forall i | 0 <= i < m1.n
      ensures 0 <= m1.ids[i] < w[0].centroids.K()
    {
      NearestSpec(m0.xs[i], m0.ys[i], w[0].centroids);
    }
  }

  /** One full distributed round (assignment, then recomputation) leaves on every
      rank the centroids the sequential kernels compute from the root's points:
      padding never reaches the recomputation. */
  lemma RoundRefinesSequential(w: seq<Node>)
    requires Laid(w) && CentroidsAgree(w) && w[0].centroids.K() >= 1
    ensures var m0 := w[0].main; var cs := w[0].centroids;
            var after := AssignClusters(w).nodes;
            IdsInRange(after[0].main, cs.K()) &&
            var c := CalculateCentroids(after);
            forall r :: 0 <= r < |w| ==> c[r].centroids == Recomputed(Assigned(m0, cs), cs)
  {
    var m0 := w[0].main;
    var cs := w[0].centroids;
    var after := AssignClusters(w).nodes;
    AssignClustersIdsInRange(w);
    AssignClustersRefines(w);
    var seqIds := AssignedIds(m0, cs);
    assert Assigned(m0, cs).ids[..m0.n] == seqIds[..m0.n];
    RecomputedDependsOnPrefix(after[0].main, Assigned(m0, cs), cs);
  }

  /** What one assignment-plus-recomputation round keeps, as the main loop
      needs it: the ranks stay laid out and agreeing, the root's point count,
      coordinates and centroid count do not change. */
  lemma RoundKeepsShape(w: seq<Node>)
    requires Laid(w) && CentroidsAgree(w) && w[0].centroids.K() >= 1
    ensures IdsInRange(AssignClusters(w).nodes[0].main, w[0].centroids.K())
    ensures var c := CalculateCentroids(AssignClusters(w).nodes);
            && Laid(c) && |c| == |w| && CentroidsAgree(c)
            && c[0].main.n == w[0].main.n && c[0].centroids.K() == w[0].centroids.K()
            && c[0].main.xs == w[0].main.xs && c[0].main.ys == w[0].main.ys
  {
    AssignClustersIdsInRange(w);
    AssignClustersKeepsPoints(w);
  }

  /** Round idempotence: a second round with the same centroids finds every
      id of the root's span already nearest, so the root's count is 0 and its
      dataset comes back unchanged. */
  lemma SecondRoundNoChanges(w: seq<Node>)
    requires Laid(w) && CentroidsAgree(w)
    ensures var a := AssignClusters(w).nodes;
            && Laid(a) && CentroidsAgree(a) && a[0].centroids == w[0].centroids
            && AssignClusters(a).returned[0] == 0
            && AssignClusters(a).nodes[0].main == a[0].main
  {
    var a := AssignClusters(w).nodes;
    var span := |w| * w[0].chunk;
    AssignClustersRoot(w);
    AssignClustersRoot(a);
    var m1 := a[0].main;
    var m2 := AssignClusters(a).nodes[0].main;
    assert m2.ids == m1.ids;
    ChangesZeroIff(m1.ids, m2.ids, 0, span);
  }

  /** Lloyd's fixed point for the distributed round. When the root's centroids
      were recomputed from its current dataset (as they are after every
      iteration) and a round then reports 0 changes at the root, the round
      changed no id, the recomputation that follows gives the same centroids
      back, and the assignment and the centroids are each what the other would
      produce. Padding slots count too: a 0 count means none of them changed. */
  lemma ConvergedRoundIsFixedPoint(w: seq<Node>, older: Centroids)
    requires Laid(w) && CentroidsAgree(w) && w[0].centroids.K() >= 1 && older.Valid()
    requires w[0].centroids == Recomputed(w[0].main, older)
    ensures IdsInRange(AssignClusters(w).nodes[0].main, w[0].centroids.K())
    ensures var round := AssignClusters(w);
            var c := CalculateCentroids(round.nodes);
            round.returned[0] == 0 ==>
              && c[0].main == w[0].main && c[0].centroids == w[0].centroids
              && LloydFixedPoint(c[0].main, c[0].centroids)
  {
    AssignClustersIdsInRange(w);
    var round := AssignClusters(w);
    var m0 := w[0].main;
    var m1 := round.nodes[0].main;
    var cs := w[0].centroids;
    if round.returned[0] == 0 {
      var span := |w| * w[0].chunk;
      AssignClustersRoot(w);
      ChangesZeroIff(m0.ids, m1.ids, 0, span);
      assert m1.ids == m0.ids;
      assert m1 == m0;
      assert m0.ids == AssignedIds(m0, cs);
      RecomputeIdempotent(m0, older);
    }
  }

  /** `initialize_representatives`: every rank allocates K centroids, the root
      seeds them from its first K points (fatal with fewer points than
      clusters), then broadcasts. The fresh allocation's contents are never
      read: the root overwrites its own and the broadcast the others. */
  function InitializeRepresentatives(w: seq<Node>, numClusters: nat): (r: Result<seq<Node>>)
    requires Laid(w)
    ensures r.Failure? <==> w[0].main.n < numClusters
    ensures r.Success? ==> Laid(r.value) && |r.value| == |w| && CentroidsAgree(r.value)
    ensures r.Success? ==> r.value[0].centroids.K() == numClusters
    ensures r.Success? ==> forall k :: 0 <= k < numClusters ==>
              r.value[0].centroids.xs[k] == w[0].main.xs[k] && r.value[0].centroids.ys[k] == w[0].main.ys[k]
    ensures r.Success? ==> forall q :: 0 <= q < |w| ==> r.value[q] == w[q].(centroids := r.value[q].centroids)
  {
    var zeroed := Centroids(seq(numClusters, _ => 0.0), seq(numClusters, _ => 0.0));
    var prepared := seq(|w|, q requires 0 <= q < |w| => w[q].(centroids := zeroed));
    match InitializeCentroids(w[0].main, numClusters)
    case Failure(e) => Failure(e)
    case Success(cs) => Success(BroadcastCentroids(prepared[0 := prepared[0].(centroids := cs)]))
  }

  /** `is_done`: only the root looks at its change count and the iteration count;
      the root's flag is never cleared; then the root's flag is broadcast.
      `changes` holds every rank's own argument. */
  function IsDone(w: seq<Node>, changes: seq<int>, iterations: int, maxIterations: int): (d: seq<Node>)
    requires Laid(w) && |changes| == |w|
    ensures Laid(d) && |d| == |w| && DoneAgrees(d)
    ensures forall r :: 0 <= r < |w| ==> d[r] == w[r].(done := d[r].done)
    ensures !w[0].done ==> (d[0].done <==> SimpleDriver.IsDone(changes[0], iterations, maxIterations))
    ensures w[0].done ==> forall r :: 0 <= r < |w| ==> d[r].done
  {
    var decided := w[0].done || changes[0] == 0 || iterations >= maxIterations;
    var flags := Bcast(seq(|w|, r requires 0 <= r < |w| => if r == 0 then decided else w[r].done));
    seq(|w|, r requires 0 <= r < |w| => w[r].(done := flags[r]))
  }

  /** Only the root's change count matters: the other ranks' arguments are ignored. */
  lemma IsDoneRootDecides(w: seq<Node>, changes: seq<int>, other: seq<int>, iterations: int, maxIterations: int)
    requires Laid(w) && |changes| == |w| && |other| == |w| && changes[0] == other[0]
    ensures IsDone(w, changes, iterations, maxIterations) == IsDone(w, other, iterations, maxIterations)
  {
  }

  /** `main_loop`: every rank starts from MAX_POINTS changes and 0 iterations and
      runs assignment then recomputation, one iteration each, until the
      broadcast flag says stop; the root records the count as `used_iterations`. */
  method MainLoop(w0: seq<Node>, maxIterations: int, metrics: Metrics)
    returns (w: seq<Node>, changes: seq<int>, iterations: int, m: Metrics)
    requires Laid(w0) && CentroidsAgree(w0) && w0[0].centroids.K() >= 1
    requires forall r :: 0 <= r < |w0| ==> !w0[r].done
    ensures Laid(w) && |w| == |w0| && CentroidsAgree(w) && |changes| == |w|
    ensures w[0].main.n == w0[0].main.n && w[0].centroids.K() == w0[0].centroids.K()
    ensures w[0].main.xs == w0[0].main.xs && w[0].main.ys == w0[0].main.ys
    ensures forall r :: 0 <= r < |w| ==> w[r].done
    ensures changes[0] == 0 && iterations >= 2 ==> LloydFixedPoint(w[0].main, w[0].centroids)
    ensures SimpleDriver.IsDone(changes[0], iterations, maxIterations)
    ensures 0 <= iterations <= (if maxIterations > 0 then maxIterations else 0)
    ensures iterations == 0 <==> maxIterations <= 0
    ensures m == metrics.(usedIterations := iterations)
  {
    w := w0;
    changes := seq(|w0|, _ => MAX_POINTS);
    iterations := 0;
    w := IsDone(w, changes, iterations, maxIterations);
    ghost var older := w0[0].centroids;
    while !w[0].done
      invariant Laid(w) && |w| == |w0| && CentroidsAgree(w) && |changes| == |w| && DoneAgrees(w)
      invariant w[0].main.n == w0[0].main.n && w[0].centroids.K() == w0[0].centroids.K()
      invariant w[0].main.xs == w0[0].main.xs && w[0].main.ys == w0[0].main.ys
      invariant w[0].done <==> SimpleDriver.IsDone(changes[0], iterations, maxIterations)
      invariant 0 <= iterations <= (if maxIterations > 0 then maxIterations else 0)
      invariant iterations == 0 ==> changes[0] == MAX_POINTS
      invariant iterations >= 1 ==> older.Valid() && w[0].centroids == Recomputed(w[0].main, older)
      invariant changes[0] == 0 && iterations >= 2 ==> LloydFixedPoint(w[0].main, w[0].centroids)
      decreases maxIterations - iterations
    {
      RoundKeepsShape(w);
      if iterations >= 1 {
        ConvergedRoundIsFixedPoint(w, older);
      }
      older := w[0].centroids;
      var round := AssignClusters(w);
      changes := round.returned;
      w := CalculateCentroids(round.nodes);
      iterations := iterations + 1;
      w := IsDone(w, changes, iterations, maxIterations);
    }
    m := metrics.(usedIterations := iterations);
  }

  /** `finalize` on the root: the loaded total becomes `num_points`, and
      `main_finalize` writes the test result only when a test file is configured
      (`compared` is what `test_results` returned). */
  function Finalize(metrics: Metrics, total: nat, compared: Option<int>): (m: Metrics)
    ensures m.numPoints == total
    ensures m.testResult == (if compared.Some? then compared.value else metrics.testResult)
    ensures m.(numPoints := metrics.numPoints, testResult := metrics.testResult) == metrics
  {
    var counted := metrics.(numPoints := total);
    if compared.Some? then counted.(testResult := compared.value) else counted
  }
}
