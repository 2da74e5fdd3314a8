/** The experimental copy of the MPI driver in experiemental/kmeans_mpi_stuff.c.
    Its scatter, gather, broadcast, recomputation, seeding, `is_done` and
    finalisation move the same data as those of src/kmeans_mpi.c (module
    KmeansMpi); its round and its loop add barriers. */
module MpiStuff {
  import opened Points
  import opened Config
  import opened Collectives
  import opened Sequential
  import opened KmeansMpi
  import SimpleDriver

  /** `assign_clusters` with a barrier after the scatter and another after the
      gather. A barrier moves no data, so the round is the one of
      src/kmeans_mpi.c, root count included. */
  function AssignClusters(w: seq<Node>): (round: Round)
    requires Laid(w)
    ensures round == KmeansMpi.AssignClusters(w)
  {
    var s := Barrier(ScatterDataset(w));
    var reduced := ReduceSum(NodeCounts(s), seq(|w|, _ => 0));
    Round(Barrier(GatherDataset(AssignNodes(s))), reduced)
  }

  /** `main_loop` with a barrier after each recomputation: it stops under the
      same test as the sequential driver and leaves every rank done and holding
      the same centroids. */
  method MainLoop(w0: seq<Node>, maxIterations: int, metrics: Metrics)
    returns (w: seq<Node>, changes: seq<int>, iterations: int, m: Metrics)
    requires Laid(w0) && CentroidsAgree(w0) && w0[0].centroids.K() >= 1
    requires forall r :: 0 <= r < |w0| ==> !w0[r].done
    ensures Laid(w) && |w| == |w0| && CentroidsAgree(w) && |changes| == |w|
    ensures w[0].main.n == w0[0].main.n && w[0].centroids.K() == w0[0].centroids.K()
    ensures w[0].main.xs == w0[0].main.xs && w[0].main.ys == w0[0].main.ys
    ensures forall r :: 0 <= r < |w| ==> w[r].done
    ensures changes[0] == 0 && iterations >= 2 ==> LloydFixedPoint(w[0].main, w[0].centroids)
    ensures SimpleDriver.IsDone(changes[0], iterations, maxIterations)
    ensures 0 <= iterations <= (if maxIterations > 0 then maxIterations else 0)
    ensures iterations == 0 <==> maxIterations <= 0
    ensures m == metrics.(usedIterations := iterations)
  {
    w := w0;
    changes := seq(|w0|, _ => MAX_POINTS);
    iterations := 0;
    w := IsDone(w, changes, iterations, maxIterations);
    ghost var older := w0[0].centroids;
    while !w[0].done
      invariant Laid(w) && |w| == |w0| && CentroidsAgree(w) && |changes| == |w| && DoneAgrees(w)
      invariant w[0].main.n == w0[0].main.n && w[0].centroids.K() == w0[0].centroids.K()
      invariant w[0].main.xs == w0[0].main.xs && w[0].main.ys == w0[0].main.ys
      invariant w[0].done <==> SimpleDriver.IsDone(changes[0], iterations, maxIterations)
      invariant 0 <= iterations <= (if maxIterations > 0 then maxIterations else 0)
      invariant iterations == 0 ==> changes[0] == MAX_POINTS
      invariant iterations >= 1 ==> older.Valid() && w[0].centroids == Recomputed(w[0].main, older)
      invariant changes[0] == 0 && iterations >= 2 ==> LloydFixedPoint(w[0].main, w[0].centroids)
      decreases maxIterations - iterations
    {
      RoundKeepsShape(w);
      if iterations >= 1 {
        ConvergedRoundIsFixedPoint(w, older);
      }
      older := w[0].centroids;
      var round := AssignClusters(w);
      changes := round.returned;
      var recomputed := CalculateCentroids(round.nodes);
      w := Barrier(recomputed);
      assert w == recomputed;
      iterations := iterations + 1;
      w := IsDone(w, changes, iterations, maxIterations);
    }
    m := metrics.(usedIterations := iterations);
  }
}
