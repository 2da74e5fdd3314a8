/** `lowlevel_assign_clusters` of src/kmeans_mpi1_impl.c (and its copy in
    experiemental/kmeans_mpi_stuff.c): the assignment kernel written over bare
    column arrays and explicit counts instead of point sets. */
module Lowlevel {
  import opened Points
  import opened Distance
  import opened Sequential

  /** The first `numClusters` centroids, or none when the count is negative. */
  function Leading(cxs: seq<real>, cys: seq<real>, numClusters: int): (cs: Centroids)
    requires numClusters <= |cxs| && numClusters <= |cys|
    ensures cs.Valid() && cs.K() == (if numClusters > 0 then numClusters else 0)
  {
    var k := if numClusters > 0 then numClusters else 0;
    Centroids(cxs[..k], cys[..k])
  }

  /** Every one of the first `numPoints` ids becomes the first nearest of the
      first `numClusters` centroids; the count says how many ids changed. The
      arrays past `numPoints` are never touched, and a negative count touches
      nothing. On arrays of equal length this is `simple_assign_clusters`. */
  method LowlevelAssignClusters(numPoints: int, xs: seq<real>, ys: seq<real>,
                                numClusters: int, cxs: seq<real>, cys: seq<real>, ids: seq<int>)
    returns (next: seq<int>, changes: int)
    requires numPoints <= |xs| && numPoints <= |ys| && numPoints <= |ids|
    requires numClusters <= |cxs| && numClusters <= |cys|
    ensures |next| == |ids|
    ensures forall i :: 0 <= i < numPoints ==> next[i] == Nearest(xs[i], ys[i], Leading(cxs, cys, numClusters))
    ensures forall i :: 0 <= i < |ids| && !(i < numPoints) ==> next[i] == ids[i]
    ensures changes == Changes(ids, next, 0, if numPoints > 0 then numPoints else 0)
    ensures 0 <= changes <= (if numPoints > 0 then numPoints else 0)
    ensures numPoints >= 0 && |xs| == |ys| == |ids| ==>
              next == AssignedIds(PointSet(numPoints, xs, ys, ids), Leading(cxs, cys, numClusters))
  {
    var cs := Leading(cxs, cys, numClusters);
    next := ids;
    changes := 0;
    var n := 0;
    while n < numPoints
      invariant 0 <= n && (numPoints >= 0 ==> n <= numPoints)
      invariant numPoints < 0 ==> n == 0
      invariant |next| == |ids|
      invariant forall i :: 0 <= i < n ==> next[i] == Nearest(xs[i], ys[i], cs)
      invariant forall i :: n <= i < |next| ==> next[i] == ids[i]
      invariant changes == Changes(ids, next, 0, n)
    {
      // the centroid loop is the one `simple_assign_clusters` runs
      var closest := ClosestCluster(xs[n], ys[n], cs);
      ChangesUpdateAbove(ids, next, n, closest, 0, n);
      if next[n] != closest {
        next := next[n := closest];
        changes := changes + 1;
      }
      n := n + 1;
    }
    ChangesBounds(ids, next, 0, n);
    if numPoints >= 0 && |xs| == |ys| == |ids| {
      assert next == AssignedIds(PointSet(numPoints, xs, ys, ids), cs);
    }
  }
}
