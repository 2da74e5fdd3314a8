/** Distances and the nearest-centroid choice shared by every assignment kernel
    (src/kmeans_support.c `euclidean_distance`, and the inner loop of
    `simple_assign_clusters` / `lowlevel_assign_clusters`). */
module Distance {
  import opened Points

  /** The square of the Euclidean distance between (px, py) and (qx, qy). */
  function SquaredDistance(px: real, py: real, qx: real, qy: real): real
  {
    (qx - px) * (qx - px) + (qy - py) * (qy - py)
  }

  /** Square root is a library call; the model takes it as a parameter and asks
      only that it be strictly increasing on the non-negative reals. */
  ghost predicate StrictlyIncreasing(f: real -> real)
  {
    forall a, b :: 0.0 <= a < b ==> f(a) < f(b)
  }

  /** `euclidean_distance`: the squared distance, or its square root when
      `proper_distance` is set. */
  function EuclideanDistance(p: Point, q: Point, proper: bool, sqrt: real -> real): real
  {
    var d := SquaredDistance(p.x, p.y, q.x, q.y);
    if proper then sqrt(d) else d
  }

  /** Non-negative, symmetric, and zero from a point to itself. */
  lemma SquaredDistanceMetric(px: real, py: real, qx: real, qy: real)
    ensures SquaredDistance(px, py, qx, qy) >= 0.0
    ensures SquaredDistance(px, py, qx, qy) == SquaredDistance(qx, qy, px, py)
    ensures SquaredDistance(px, py, px, py) == 0.0
  {
  }

  /** The two distance modes rank any pair of candidates the same way. */
  lemma DistanceModesAgree(p: Point, q1: Point, q2: Point, sqrt: real -> real)
    requires StrictlyIncreasing(sqrt)
    ensures EuclideanDistance(p, q1, false, sqrt) < EuclideanDistance(p, q2, false, sqrt)
            <==> EuclideanDistance(p, q1, true, sqrt) < EuclideanDistance(p, q2, true, sqrt)
  {
    SquaredDistanceMetric(p.x, p.y, q1.x, q1.y);
    SquaredDistanceMetric(p.x, p.y, q2.x, q2.y);
  }

  /** c is the position of the first minimum of ds (-1 when ds is empty). */
  ghost predicate IsFirstMin(ds: seq<real>, c: int)
  {
    if |ds| == 0 then c == -1
    else
      && 0 <= c < |ds|
      && (forall j :: 0 <= j < |ds| ==> ds[c] <= ds[j])
      && (forall j :: 0 <= j < c ==> ds[c] < ds[j])
  }

  /** The arg-min loop over candidates: start with no candidate (DBL_MAX, -1) and
      take a later candidate only when it is strictly closer, so the first of
      equally near candidates wins. */
  function FirstMin(ds: seq<real>): (c: int)
    ensures IsFirstMin(ds, c)
    decreases |ds|
  {
    if |ds| == 0 then -1
    else
      var c := FirstMin(ds[..|ds| - 1]);
      if c == -1 || ds[|ds| - 1] < ds[c] then |ds| - 1 else c
  }

  /** One step of the arg-min loop: the first minimum of one more candidate. */
  lemma FirstMinExtend(ds: seq<real>, k: nat)
    requires k < |ds|
    ensures var c := FirstMin(ds[..k]);
            FirstMin(ds[..k + 1]) == if c == -1 || ds[k] < ds[c] then k else c
  {
    assert ds[..k + 1][..k] == ds[..k];
  }

  /** The first minimum is unique, so any scan meeting IsFirstMin agrees with FirstMin. */
  lemma FirstMinUnique(ds: seq<real>, c: int)
    requires IsFirstMin(ds, c)
    ensures c == FirstMin(ds)
  {
  }

  /** Arg-min depends only on how candidates compare. */
  lemma FirstMinOrderInvariant(ds: seq<real>, es: seq<real>)
    requires |ds| == |es|
    requires forall i, j :: 0 <= i < |ds| && 0 <= j < |ds| ==> (ds[i] < ds[j] <==> es[i] < es[j])
    ensures FirstMin(ds) == FirstMin(es)
  {
    var c := FirstMin(ds);
    if |ds| > 0 {
      forall j | 0 <= j < |es|
        ensures es[c] <= es[j]
      {
        assert !(ds[j] < ds[c]);
      }
    }
    FirstMinUnique(es, c);
  }

  /** Squared distances from (px, py) to each centroid, in centroid order. */
  function Distances(px: real, py: real, cs: Centroids): (ds: seq<real>)
    requires cs.Valid()
    ensures |ds| == cs.K()
    ensures forall k :: 0 <= k < cs.K() ==> ds[k] == SquaredDistance(px, py, cs.xs[k], cs.ys[k])
  {
    seq(cs.K(), k requires 0 <= k < cs.K() => SquaredDistance(px, py, cs.xs[k], cs.ys[k]))
  }

  /** The cluster a point at (px, py) is assigned to. */
  function Nearest(px: real, py: real, cs: Centroids): int
    requires cs.Valid()
  {
    FirstMin(Distances(px, py, cs))
  }

  /** With no centroids a point gets -1; otherwise a valid index of a centroid at
      minimal distance, strictly nearer than every earlier centroid. */
  lemma NearestSpec(px: real, py: real, cs: Centroids)
    requires cs.Valid()
    ensures Nearest(px, py, cs) == -1 <==> cs.K() == 0
    ensures cs.K() > 0 ==> 0 <= Nearest(px, py, cs) < cs.K()
    ensures forall k :: 0 <= k < cs.K() ==>
              var c := Nearest(px, py, cs);
              SquaredDistance(px, py, cs.xs[c], cs.ys[c]) <= SquaredDistance(px, py, cs.xs[k], cs.ys[k])
    ensures forall k :: 0 <= k < Nearest(px, py, cs) ==>
              var c := Nearest(px, py, cs);
              SquaredDistance(px, py, cs.xs[c], cs.ys[c]) < SquaredDistance(px, py, cs.xs[k], cs.ys[k])
  {
    var ds := Distances(px, py, cs);
    assert IsFirstMin(ds, FirstMin(ds));
  }

  /** Assigning with true distances (`-e`) picks the same cluster as with squared distances. */
  lemma ProperDistanceSameNearest(px: real, py: real, cs: Centroids, sqrt: real -> real)
    requires cs.Valid()
    requires StrictlyIncreasing(sqrt)
    ensures FirstMin(seq(cs.K(), k requires 0 <= k < cs.K() =>
                EuclideanDistance(Point(px, py, NO_CLUSTER), Point(cs.xs[k], cs.ys[k], NO_CLUSTER), true, sqrt)))
            == Nearest(px, py, cs)
  {
    var ds := Distances(px, py, cs);
    var es := seq(cs.K(), k requires 0 <= k < cs.K() =>
                EuclideanDistance(Point(px, py, NO_CLUSTER), Point(cs.xs[k], cs.ys[k], NO_CLUSTER), true, sqrt));
    forall i, j | 0 <= i < |ds| && 0 <= j < |ds|
      ensures ds[i] < ds[j] <==> es[i] < es[j]
    {
      DistanceModesAgree(Point(px, py, NO_CLUSTER), Point(cs.xs[i], cs.ys[i], NO_CLUSTER),
                         Point(cs.xs[j], cs.ys[j], NO_CLUSTER), sqrt);
    }
    FirstMinOrderInvariant(ds, es);
  }
}
