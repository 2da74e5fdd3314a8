/** The sequential Lloyd's k-means kernels of src/kmeans_sequential.c:
    nearest-centroid assignment, centroid recomputation and seeding. */
module Sequential {
  import opened Wrappers
  import opened Points
  import opened Distance

  /** Cluster ids after one assignment pass: each of the first n points holds its
      nearest centroid, and the slots past n are not touched. */
  function AssignedIds(ds: PointSet, cs: Centroids): (ids: seq<int>)
    requires ds.Valid() && cs.Valid()
    ensures |ids| == |ds.ids|
  {
    seq(|ds.ids|, i requires 0 <= i < |ds.ids| =>
      if i < ds.n then Nearest(ds.xs[i], ds.ys[i], cs) else ds.ids[i])
  }

  /** The dataset after one assignment pass. */
  function Assigned(ds: PointSet, cs: Centroids): (r: PointSet)
    requires ds.Valid() && cs.Valid()
    ensures r.Valid()
  {
    ds.(ids := AssignedIds(ds, cs))
  }

  /** Number of positions i in [lo, hi) where a and b differ. */
  function Changes(a: seq<int>, b: seq<int>, lo: nat, hi: nat): nat
    requires lo <= hi <= |a| && hi <= |b|
    decreases hi - lo
  {
    if lo == hi then 0
    else Changes(a, b, lo, hi - 1) + (if a[hi - 1] != b[hi - 1] then 1 else 0)
  }

  lemma {:induction false} ChangesBounds(a: seq<int>, b: seq<int>, lo: nat, hi: nat)
    requires lo <= hi <= |a| && hi <= |b|
    ensures Changes(a, b, lo, hi) <= hi - lo
    ensures Changes(a, b, lo, hi) == 0 <==> a[lo..hi] == b[lo..hi]
    decreases hi - lo
  {
    if lo < hi {
      ChangesBounds(a, b, lo, hi - 1);
      assert a[lo..hi] == a[lo..hi - 1] + [a[hi - 1]];
      assert b[lo..hi] == b[lo..hi - 1] + [b[hi - 1]];
      if a[lo..hi] == b[lo..hi] {
        assert a[lo..hi - 1] == a[lo..hi][..hi - 1 - lo];
        assert b[lo..hi - 1] == b[lo..hi][..hi - 1 - lo];
        assert a[hi - 1] == a[lo..hi][hi - 1 - lo];
      }
    }
  }

  /** No change over [lo, hi) exactly when a and b agree at every position there. */
  lemma {:induction false} ChangesZeroIff(a: seq<int>, b: seq<int>, lo: nat, hi: nat)
    requires lo <= hi <= |a| && hi <= |b|
    ensures Changes(a, b, lo, hi) == 0 <==> forall i :: lo <= i < hi ==> a[i] == b[i]
    decreases hi - lo
  {
    if lo < hi {
      ChangesZeroIff(a, b, lo, hi - 1);
    }
  }

  lemma {:induction false} ChangesSplit(a: seq<int>, b: seq<int>, lo: nat, mid: nat, hi: nat)
    requires lo <= mid <= hi <= |a| && hi <= |b|
    ensures Changes(a, b, lo, hi) == Changes(a, b, lo, mid) + Changes(a, b, mid, hi)
    decreases hi - mid
  {
    if mid < hi {
      ChangesSplit(a, b, lo, mid, hi - 1);
    }
  }

  /** Counting over a window of (a, b) is counting over the same values moved to offset 0. */
  lemma {:induction false} ChangesShift(a: seq<int>, b: seq<int>, a': seq<int>, b': seq<int>, off: nat, len: nat)
    requires off + len <= |a| && off + len <= |b| && len <= |a'| && len <= |b'|
    requires forall j :: 0 <= j < len ==> a'[j] == a[off + j] && b'[j] == b[off + j]
    ensures Changes(a', b', 0, len) == Changes(a, b, off, off + len)
    decreases len
  {
    if len > 0 {
      ChangesShift(a, b, a', b', off, len - 1);
    }
  }

  /** When b and c agree below n, counting (a, b) up to hi is counting (a, c) up
      to n plus counting (a, b) from n to hi. */
  lemma ChangesPrefixAgree(a: seq<int>, b: seq<int>, c: seq<int>, n: nat, hi: nat)
    requires n <= hi <= |a| && hi <= |b| && n <= |c|
    requires forall j :: 0 <= j < n ==> b[j] == c[j]
    ensures Changes(a, b, 0, hi) == Changes(a, c, 0, n) + Changes(a, b, n, hi)
  {
    ChangesSplit(a, b, 0, n, hi);
    ChangesShift(a, b, a, c, 0, n);
  }

  /** Writing at or past hi does not change the count over [lo, hi). */
  lemma {:induction false} ChangesUpdateAbove(a: seq<int>, b: seq<int>, j: nat, v: int, lo: nat, hi: nat)
    requires lo <= hi <= j < |a| && j < |b|
    ensures Changes(a, b[j := v], lo, hi) == Changes(a, b, lo, hi)
    decreases hi - lo
  {
    if lo < hi {
      ChangesUpdateAbove(a, b, j, v, lo, hi - 1);
    }
  }

  /** `simple_assign_clusters`: gives each of the first n points the first nearest
      centroid and returns how many ids that changed. */
  method SimpleAssignClusters(ds: PointSet, cs: Centroids) returns (r: PointSet, changes: int)
    requires ds.Valid() && cs.Valid()
    ensures r.Valid() && r.n == ds.n && r.xs == ds.xs && r.ys == ds.ys
    ensures forall i :: 0 <= i < ds.n ==> r.ids[i] == Nearest(ds.xs[i], ds.ys[i], cs)
    ensures forall i :: ds.n <= i < |ds.ids| ==> r.ids[i] == ds.ids[i]
    ensures changes == Changes(ds.ids, r.ids, 0, ds.n)
    ensures 0 <= changes <= ds.n
    ensures r == Assigned(ds, cs)
  {
    var ids := ds.ids;
    changes := 0;
    var n := 0;
    while n < ds.n
      invariant 0 <= n <= ds.n
      invariant |ids| == |ds.ids|
      invariant forall i :: 0 <= i < n ==> ids[i] == Nearest(ds.xs[i], ds.ys[i], cs)
      invariant forall i :: n <= i < |ids| ==> ids[i] == ds.ids[i]
      invariant changes == Changes(ds.ids, ids, 0, n)
    {
      var closest := ClosestCluster(ds.xs[n], ds.ys[n], cs);
      ChangesUpdateAbove(ds.ids, ids, n, closest, 0, n);
      if ids[n] != closest {
        ids := ids[n := closest];
        changes := changes + 1;
      }
      n := n + 1;
    }
    r := ds.(ids := ids);
    assert ids == AssignedIds(ds, cs);
    ChangesBounds(ds.ids, r.ids, 0, ds.n);
  }

  /** The inner loop over centroids, with `min_distance` starting at "no candidate". */
  method ClosestCluster(px: real, py: real, cs: Centroids) returns (closest: int)
    requires cs.Valid()
    ensures closest == Nearest(px, py, cs)
    ensures closest == -1 <==> cs.K() == 0
  {
    var ds := Distances(px, py, cs);
    var minDistance: Option<real> := None;
    closest := -1;
    var k := 0;
    while k < cs.K()
      invariant 0 <= k <= cs.K()
      invariant closest == FirstMin(ds[..k])
      invariant minDistance.None? <==> closest == -1
      invariant minDistance.Some? ==> 0 <= closest < k && minDistance.value == ds[closest]
    {
      var d := SquaredDistance(px, py, cs.xs[k], cs.ys[k]);
      FirstMinExtend(ds, k);
      if minDistance.None? || d < minDistance.value {
        minDistance := Some(d);
        closest := k;
      }
      k := k + 1;
    }
    assert ds[..cs.K()] == ds;
  }

  /** Feeding an assignment back in with unchanged centroids changes nothing:
      the second pass reports 0, the "clustering complete" signal. */
  lemma SecondPassNoChanges(ds: PointSet, cs: Centroids)
    requires ds.Valid() && cs.Valid()
    ensures AssignedIds(Assigned(ds, cs), cs) == Assigned(ds, cs).ids
    ensures Changes(Assigned(ds, cs).ids, AssignedIds(Assigned(ds, cs), cs), 0, ds.n) == 0
  {
    var once := Assigned(ds, cs);
    assert AssignedIds(once, cs) == once.ids;
    ChangesBounds(once.ids, once.ids, 0, ds.n);
  }

  /** With no centroids every point gets -1; otherwise every assigned id names a centroid. */
  lemma AssignedIdsInRange(ds: PointSet, cs: Centroids)
    requires ds.Valid() && cs.Valid()
    ensures cs.K() == 0 ==> forall i :: 0 <= i < ds.n ==> AssignedIds(ds, cs)[i] == NO_CLUSTER
    ensures cs.K() > 0 ==> forall i :: 0 <= i < ds.n ==> 0 <= AssignedIds(ds, cs)[i] < cs.K()
  {
    forall i | 0 <= i < ds.n
      ensures cs.K() == 0 ==> AssignedIds(ds, cs)[i] == NO_CLUSTER
      ensures cs.K() > 0 ==> 0 <= AssignedIds(ds, cs)[i] < cs.K()
    {
      NearestSpec(ds.xs[i], ds.ys[i], cs);
    }
  }

  /** Lloyd's fixed point: the ids are the assignment the centroids give, and
      the centroids are the means those ids give. */
  predicate LloydFixedPoint(ds: PointSet, cs: Centroids)
    requires ds.Valid() && cs.Valid()
  {
    ds.ids == AssignedIds(ds, cs) && cs == Recomputed(ds, cs)
  }

  /** Every one of the first n points carries the id of an existing centroid:
      what centroid recomputation needs, since it indexes by id unchecked. */
  ghost predicate IdsInRange(ds: PointSet, k: nat)
    requires ds.Valid()
  {
    forall i :: 0 <= i < ds.n ==> 0 <= ds.ids[i] < k
  }

  /** Number of the first m points in cluster k. */
  function Members(ds: PointSet, k: int, m: nat): nat
    requires ds.Valid() && m <= ds.Capacity()
  {
    if m == 0 then 0 else Members(ds, k, m - 1) + (if ds.ids[m - 1] == k then 1 else 0)
  }

  /** Sum of the x coordinates of the first m points in cluster k. */
  function SumX(ds: PointSet, k: int, m: nat): real
    requires ds.Valid() && m <= ds.Capacity()
  {
    if m == 0 then 0.0 else SumX(ds, k, m - 1) + (if ds.ids[m - 1] == k then ds.xs[m - 1] else 0.0)
  }

  /** Sum of the y coordinates of the first m points in cluster k. */
  function SumY(ds: PointSet, k: int, m: nat): real
    requires ds.Valid() && m <= ds.Capacity()
  {
    if m == 0 then 0.0 else SumY(ds, k, m - 1) + (if ds.ids[m - 1] == k then ds.ys[m - 1] else 0.0)
  }

  /** Mean of cluster k's x (or y) coordinates, or `previous` when the cluster is empty. */
  function MeanOr(sum: real, count: nat, previous: real): real
  {
    if count > 0 then sum / count as real else previous
  }

  /** Centroids after recomputation: the mean of each non-empty cluster, the old
      centroid for an empty one. */
  function Recomputed(ds: PointSet, cs: Centroids): (r: Centroids)
    requires ds.Valid() && cs.Valid()
    ensures r.Valid() && r.K() == cs.K()
  {
    Centroids(
      seq(cs.K(), k requires 0 <= k < cs.K() => MeanOr(SumX(ds, k, ds.n), Members(ds, k, ds.n), cs.xs[k])),
      seq(cs.K(), k requires 0 <= k < cs.K() => MeanOr(SumY(ds, k, ds.n), Members(ds, k, ds.n), cs.ys[k])))
  }

  /** `simple_calculate_centroids`: accumulate per-cluster sums and counts in one
      pass over the points, then move every non-empty cluster's centroid to the
      mean of its members. */
  method SimpleCalculateCentroids(ds: PointSet, cs: Centroids) returns (r: Centroids)
    requires ds.Valid() && cs.Valid()
    requires IdsInRange(ds, cs.K())
    ensures r.Valid() && r.K() == cs.K()
    ensures forall k :: 0 <= k < cs.K() && Members(ds, k, ds.n) > 0 ==>
              r.xs[k] == SumX(ds, k, ds.n) / Members(ds, k, ds.n) as real &&
              r.ys[k] == SumY(ds, k, ds.n) / Members(ds, k, ds.n) as real
    ensures forall k :: 0 <= k < cs.K() && Members(ds, k, ds.n) == 0 ==>
              r.xs[k] == cs.xs[k] && r.ys[k] == cs.ys[k]
    ensures r == Recomputed(ds, cs)
  {
    var numClusters := cs.K();
    var sumX := seq(numClusters, _ => 0.0);
    var sumY := seq(numClusters, _ => 0.0);
    var count := seq(numClusters, _ => 0);
    var n := 0;
    while n < ds.n
      invariant 0 <= n <= ds.n
      invariant |sumX| == |sumY| == |count| == numClusters
      invariant forall k :: 0 <= k < numClusters ==>
                  sumX[k] == SumX(ds, k, n) && sumY[k] == SumY(ds, k, n) && count[k] == Members(ds, k, n)
    {
      var k := ds.ids[n];
      sumX := sumX[k := sumX[k] + ds.xs[n]];
      sumY := sumY[k := sumY[k] + ds.ys[n]];
      count := count[k := count[k] + 1];
      n := n + 1;
    }
    var xs := cs.xs;
    var ys := cs.ys;
    var k := 0;
    while k < numClusters
      invariant 0 <= k <= numClusters
      invariant |xs| == |ys| == numClusters
      invariant forall j :: 0 <= j < k ==>
                  xs[j] == MeanOr(SumX(ds, j, ds.n), Members(ds, j, ds.n), cs.xs[j]) &&
                  ys[j] == MeanOr(SumY(ds, j, ds.n), Members(ds, j, ds.n), cs.ys[j])
      invariant forall j :: k <= j < numClusters ==> xs[j] == cs.xs[j] && ys[j] == cs.ys[j]
    {
      if count[k] > 0 {
        xs := xs[k := sumX[k] / count[k] as real];
        ys := ys[k := sumY[k] / count[k] as real];
      }
      k := k + 1;
    }
    r := Centroids(xs, ys);
  }

  /** Recomputation reads the assignment, not the old centroids, for every
      non-empty cluster, so doing it twice with the same assignment is doing it once. */
  lemma RecomputeIdempotent(ds: PointSet, cs: Centroids)
    requires ds.Valid() && cs.Valid()
    ensures Recomputed(ds, Recomputed(ds, cs)) == Recomputed(ds, cs)
  {
  }

  /** Recomputation looks only at the first n points. */
  lemma RecomputedDependsOnPrefix(ds: PointSet, ds': PointSet, cs: Centroids)
    requires ds.Valid() && ds'.Valid() && cs.Valid()
    requires ds.n == ds'.n
    requires ds.xs[..ds.n] == ds'.xs[..ds.n]
    requires ds.ys[..ds.n] == ds'.ys[..ds.n]
    requires ds.ids[..ds.n] == ds'.ids[..ds.n]
    ensures Recomputed(ds, cs) == Recomputed(ds', cs)
  {
    forall k, m | 0 <= m <= ds.n
      ensures Members(ds, k, m) == Members(ds', k, m)
      ensures SumX(ds, k, m) == SumX(ds', k, m)
      ensures SumY(ds, k, m) == SumY(ds', k, m)
    {
      PrefixSums(ds, ds', k, m);
    }
  }

  lemma {:induction false} PrefixSums(ds: PointSet, ds': PointSet, k: int, m: nat)
    requires ds.Valid() && ds'.Valid()
    requires m <= ds.n && ds.n == ds'.n
    requires ds.xs[..ds.n] == ds'.xs[..ds.n]
    requires ds.ys[..ds.n] == ds'.ys[..ds.n]
    requires ds.ids[..ds.n] == ds'.ids[..ds.n]
    ensures Members(ds, k, m) == Members(ds', k, m)
    ensures SumX(ds, k, m) == SumX(ds', k, m)
    ensures SumY(ds, k, m) == SumY(ds', k, m)
  {
    if m > 0 {
      PrefixSums(ds, ds', k, m - 1);
      assert ds.xs[m - 1] == ds.xs[..ds.n][m - 1] == ds'.xs[m - 1];
      assert ds.ys[m - 1] == ds.ys[..ds.n][m - 1] == ds'.ys[m - 1];
      assert ds.ids[m - 1] == ds.ids[..ds.n][m - 1] == ds'.ids[m - 1];
    }
  }

  /** The four-point example: (0,0),(0,2) in cluster 0 and (10,0),(10,2) in
      cluster 1 recompute to centroids (0,1) and (10,1). */
  lemma RecomputeExample(cs: Centroids)
    requires cs.Valid() && cs.K() == 2
    ensures Recomputed(PointSet(4, [0.0, 0.0, 10.0, 10.0], [0.0, 2.0, 0.0, 2.0], [0, 0, 1, 1]), cs)
            == Centroids([0.0, 10.0], [1.0, 1.0])
  {
    var ds := PointSet(4, [0.0, 0.0, 10.0, 10.0], [0.0, 2.0, 0.0, 2.0], [0, 0, 1, 1]);
    assert Members(ds, 0, 4) == 2 && Members(ds, 1, 4) == 2;
    assert SumX(ds, 0, 4) == 0.0 && SumY(ds, 0, 4) == 2.0;
    assert SumX(ds, 1, 4) == 20.0 && SumY(ds, 1, 4) == 2.0;
  }

  /** `initialize_centroids`: fails when there are fewer points than clusters,
      otherwise seeds the K centroids from the first K points. */
  function InitializeCentroids(ds: PointSet, numClusters: nat): (r: Result<Centroids>)
    requires ds.Valid()
    ensures r.Failure? <==> ds.n < numClusters
    ensures r.Success? ==> r.value.Valid() && r.value.K() == numClusters
    ensures r.Success? ==> forall k :: 0 <= k < numClusters ==>
              r.value.xs[k] == ds.xs[k] && r.value.ys[k] == ds.ys[k]
  {
    if ds.n < numClusters then Failure("There cannot be fewer points than clusters")
    else Success(Centroids(ds.xs[..numClusters], ds.ys[..numClusters]))
  }

  /** Right after seeding, each of the first K points lies on its own centroid, so
      the first assignment puts it in that cluster or an earlier one at distance 0. */
  lemma SeededPointsNearOwnCentroid(ds: PointSet, numClusters: nat, i: nat)
    requires ds.Valid()
    requires InitializeCentroids(ds, numClusters).Success?
    requires i < numClusters
    ensures var cs := InitializeCentroids(ds, numClusters).value;
            var c := Nearest(ds.xs[i], ds.ys[i], cs);
            0 <= c <= i && SquaredDistance(ds.xs[i], ds.ys[i], cs.xs[c], cs.ys[c]) == 0.0
  {
    var cs := InitializeCentroids(ds, numClusters).value;
    var c := Nearest(ds.xs[i], ds.ys[i], cs);
    NearestSpec(ds.xs[i], ds.ys[i], cs);
    SquaredDistanceMetric(ds.xs[i], ds.ys[i], cs.xs[i], cs.ys[i]);
    SquaredDistanceMetric(ds.xs[i], ds.ys[i], cs.xs[c], cs.ys[c]);
    assert SquaredDistance(ds.xs[i], ds.ys[i], cs.xs[i], cs.ys[i]) == 0.0;
  }
}
