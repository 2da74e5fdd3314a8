/** The datatypes and compile-time constants of src/kmeans.h. */
module Points {

  /** Default number of clusters (K). */
  const NUM_CLUSTERS: int := 15
  /** Default iteration cap. */
  const MAX_ITERATIONS: int := 10000
  /** Default point capacity; also the "not yet converged" change count a main loop starts from. */
  const MAX_POINTS: int := 5000

  /** Cluster id of a point read without a cluster column, and of a point
      assigned while there are no centroids. */
  const NO_CLUSTER: int := -1

  /** `struct point`: one row of a CSV file. */
  datatype Point = Point(x: real, y: real, cluster: int)

  /** `struct pointset`: three parallel columns of which the first `n` slots hold
      points; the slots past `n` (up to the allocated capacity) hold whatever
      was there before. */
  datatype PointSet = PointSet(n: nat, xs: seq<real>, ys: seq<real>, ids: seq<int>) {

    predicate Valid() {
      |xs| == |ys| == |ids| && n <= |xs|
    }

    function Capacity(): nat {
      |xs|
    }

    /** The i-th slot as a `struct point`. */
    function At(i: nat): Point
      requires Valid() && i < Capacity()
    {
      Point(xs[i], ys[i], ids[i])
    }
  }

  /** The centroid set: K representatives, stored by column. The centroids'
      own cluster field is never read by any kernel, and the clustering code
      only ever writes it as IGNORE_CLUSTER_ID, so it is not represented. */
  datatype Centroids = Centroids(xs: seq<real>, ys: seq<real>) {

    predicate Valid() {
      |xs| == |ys|
    }

    function K(): nat {
      |xs|
    }
  }

  /** A dataset whose first `n` slots are `pts`; every later slot up to
      `capacity` holds what the allocation left there, `stale(i)` at slot i. */
  function FromPoints(pts: seq<Point>, capacity: nat, stale: nat -> Point): (ps: PointSet)
    requires |pts| <= capacity
    ensures ps.Valid() && ps.n == |pts| && ps.Capacity() == capacity
    ensures forall i :: 0 <= i < |pts| ==> ps.At(i) == pts[i]
    ensures forall i :: |pts| <= i < capacity ==> ps.At(i) == stale(i)
  {
    var row := (i: nat) => if i < |pts| then pts[i] else stale(i);
    PointSet(|pts|,
             seq(capacity, i requires 0 <= i < capacity => row(i).x),
             seq(capacity, i requires 0 <= i < capacity => row(i).y),
             seq(capacity, i requires 0 <= i < capacity => row(i).cluster))
  }
}
