/** The earlier MPI variant of src/kmeans_mpi1_impl.c. Its set-up, centroid
    broadcast, recomputation, seeding and finalisation move the same data as
    those of src/kmeans_mpi.c (module KmeansMpi); what differs is the round:
    only the x column is scattered and gathered, each rank assigns with the
    column-wise kernel, and no count is reduced. */
module Mpi1 {
  import opened Points
  import opened Distance
  import opened Sequential
  import opened Collectives
  import opened KmeansMpi

  /** `mpi_scatter_dataset`: rank r's node x column becomes chunk r of the root's
      x column; the node's y column and ids keep whatever they held. */
  function ScatterXs(w: seq<Node>): (s: seq<Node>)
    requires Laid(w)
    ensures Laid(s) && |s| == |w|
    ensures forall r :: 0 <= r < |w| ==> s[r] == w[r].(local := w[r].local.(xs := s[r].local.xs))
  {
    var xs := Scatter(w[0].main.xs, w[0].chunk, |w|);
    seq(|w|, r requires 0 <= r < |w| => w[r].(local := w[r].local.(xs := xs[r])))
  }

  lemma ScatterXsAt(w: seq<Node>, r: nat, j: nat)
    requires Laid(w) && r < |w| && j < w[0].chunk
    ensures r * w[0].chunk + j < w[0].main.Capacity()
    ensures ScatterXs(w)[r].local.xs[j] == w[0].main.xs[r * w[0].chunk + j]
  {
    ScatterAt(w[0].main.xs, w[0].chunk, |w|, r, j);
  }

  /** `mpi_gather_dataset`: the node x columns land, in rank order, in the root's
      x column; nothing else moves. */
  function GatherXs(w: seq<Node>): (g: seq<Node>)
    requires Laid(w)
    ensures Laid(g) && |g| == |w|
    ensures forall r :: 1 <= r < |w| ==> g[r] == w[r]
    ensures g[0] == w[0].(main := w[0].main.(xs := g[0].main.xs))
  {
    var m := w[0].main;
    w[0 := w[0].(main := m.(xs := Gather(LocalXs(w), w[0].chunk, m.xs)))]
  }

  lemma GatherXsAt(w: seq<Node>, r: nat, j: nat)
    requires Laid(w) && r < |w| && j < w[0].chunk
    ensures r * w[0].chunk + j < w[0].main.Capacity()
    ensures GatherXs(w)[0].main.xs[r * w[0].chunk + j] == w[r].local.xs[j]
  {
    GatherAt(LocalXs(w), w[0].chunk, w[0].main.xs, r, j);
  }

  /** `assign`: scatter the x column, run `lowlevel_assign_clusters` on each node
      dataset (Lowlevel.LowlevelAssignClusters computes Assigned on it), gather
      the x column. Each rank returns the count of ids it changed itself:
      nothing is summed. */
  function Assign(w: seq<Node>): (round: Round)
    requires Laid(w)
    ensures Laid(round.nodes) && |round.nodes| == |w| && |round.returned| == |w|
    ensures forall r :: 0 <= r < |w| ==>
              round.nodes[r] == w[r].(main := round.nodes[r].main, local := round.nodes[r].local)
    ensures forall r :: 1 <= r < |w| ==> round.nodes[r].main == w[r].main
    ensures forall r :: 0 <= r < |w| ==>
              round.returned[r] == Changes(w[r].local.ids, round.nodes[r].local.ids, 0, w[0].chunk)
  {
    var s := ScatterXs(w);
    Round(GatherXs(AssignNodes(s)), NodeCounts(s))
  }

  /** What a rank assigns: slot j gets the centroid nearest to the root's x at
      r*chunk + j paired with the y the node dataset already held. */
  lemma AssignLocal(w: seq<Node>, r: nat, j: nat)
    requires Laid(w) && r < |w| && j < w[0].chunk
    ensures r * w[0].chunk + j < w[0].main.Capacity()
    ensures var local := Assign(w).nodes[r].local;
            && local.ys == w[r].local.ys
            && |local.ids| == |w[r].local.ids|
            && local.ids[j] == Nearest(w[0].main.xs[r * w[0].chunk + j], w[r].local.ys[j], w[r].centroids)
  {
    ScatterXsAt(w, r, j);
  }

  /** The root's dataset leaves the round exactly as it entered: the gather puts
      back the x values the scatter handed out, and the y column and the ids
      are never gathered, so the assignment never reaches the root's points. */
  lemma AssignKeepsRootDataset(w: seq<Node>)
    requires Laid(w)
    ensures Assign(w).nodes[0].main == w[0].main
  {
    var c := w[0].chunk;
    var m := w[0].main;
    var a := AssignNodes(ScatterXs(w));
    assert LocalXs(a) == Scatter(m.xs, c, |w|);
    GatherScatter(m.xs, c, |w|);
  }

  /** Consequently an input loaded without a cluster column, whose ids are all
      NO_CLUSTER, still has them after the round: the root never holds ids
      that name a centroid, so the recomputation that follows has no valid
      cluster index to read (see Iteration's precondition). */
  lemma UnlabelledRootStaysUnassigned(w: seq<Node>)
    requires Laid(w) && w[0].main.n >= 1 && w[0].main.ids[0] == NO_CLUSTER
    ensures !IdsInRange(Assign(w).nodes[0].main, w[0].centroids.K())
  {
    AssignKeepsRootDataset(w);
  }

  /** One iteration: `assign`, then `calculate_centroids` (root recomputes from
      its dataset, then broadcasts), which is KmeansMpi.CalculateCentroids.
      Every rank ends up with the centroids recomputed from the root's loaded
      ids, whatever the nodes assigned. Stated for a root whose loaded ids are
      already cluster indices below K (an input with a cluster column); with
      any other ids the recomputation reads outside its arrays. */
  function Iteration(w: seq<Node>): (c: seq<Node>)
    requires Laid(w) && IdsInRange(w[0].main, w[0].centroids.K())
    ensures Laid(c) && |c| == |w| && CentroidsAgree(c)
    ensures c[0].main == w[0].main
    ensures forall r :: 0 <= r < |w| ==> c[r].centroids == Recomputed(w[0].main, w[0].centroids)
  {
    AssignKeepsRootDataset(w);
    CalculateCentroids(Assign(w).nodes)
  }

  /** So, for such labelled input, the centroids stop moving after the first
      iteration: a second one recomputes the same means from the same ids. */
  lemma IterationStuck(w: seq<Node>)
    requires Laid(w) && IdsInRange(w[0].main, w[0].centroids.K())
    ensures var c := Iteration(w);
            IdsInRange(c[0].main, c[0].centroids.K()) &&
            forall r :: 0 <= r < |w| ==> Iteration(c)[r].centroids == c[r].centroids
  {
    RecomputeIdempotent(w[0].main, w[0].centroids);
  }
}
