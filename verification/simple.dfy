/** The sequential driver: the glue of src/kmeans_simple_impl.c around the
    kernels of module Sequential, and the iteration loop and metric copying of
    src/kmeans.c. */
module SimpleDriver {
  import opened Wrappers
  import opened Points
  import opened Distance
  import opened Sequential
  import opened Config

  /** The driver's globals: `main_dataset` and `centroids`. */
  datatype State = State(main: PointSet, centroids: Centroids)

  /** The timing totals the loop accumulates; only the iteration count is
      modelled, the clock readings stay as they were. */
  datatype Timing = Timing(
    assignmentSeconds: real,
    centroidsSeconds: real,
    maxIterationSeconds: real,
    totalSeconds: real,
    usedIterations: int)

  /** `is_done`: a run stops once an assignment changed nothing or the iteration
      cap is reached. No state is kept between calls. */
  predicate IsDone(changes: int, iterations: int, maxIterations: int)
  {
    changes == 0 || iterations >= maxIterations
  }

  /** `initialize`: one processor, and the points `read_csv` loaded into a
      buffer of `max_points` slots; the slots past them hold `stale`. */
  function Initialize(loaded: seq<Point>, maxPoints: nat, stale: nat -> Point, metrics: Metrics)
    : (r: (State, Metrics))
    requires |loaded| <= maxPoints
    ensures r.0.main.Valid() && r.0.main.n == |loaded| && r.0.main.Capacity() == maxPoints
    ensures forall i :: 0 <= i < |loaded| ==> r.0.main.At(i) == loaded[i]
    ensures forall i :: |loaded| <= i < maxPoints ==> r.0.main.At(i) == stale(i)
    ensures r.0.centroids.K() == 0
    ensures r.1.numProcessors == 1 && r.1 == metrics.(numProcessors := 1)
  {
    (State(FromPoints(loaded, maxPoints, stale), Centroids([], [])), metrics.(numProcessors := 1))
  }

  /** `assign_clusters`: `simple_assign_clusters` over the whole dataset. */
  method AssignClusters(st: State) returns (next: State, changes: int)
    requires st.main.Valid() && st.centroids.Valid()
    ensures next == st.(main := Assigned(st.main, st.centroids))
    ensures changes == Changes(st.main.ids, next.main.ids, 0, st.main.n)
    ensures 0 <= changes <= st.main.n
  {
    var ds;
    ds, changes := SimpleAssignClusters(st.main, st.centroids);
    next := st.(main := ds);
  }

  /** `calculate_centroids`: `simple_calculate_centroids` over the whole dataset. */
  method CalculateCentroids(st: State) returns (next: State)
    requires st.main.Valid() && st.centroids.Valid()
    requires IdsInRange(st.main, st.centroids.K())
    ensures next == st.(centroids := Recomputed(st.main, st.centroids))
  {
    var cs := SimpleCalculateCentroids(st.main, st.centroids);
    next := st.(centroids := cs);
  }

  /** `initialize_representatives`: K centroids, seeded from the first K points;
      fatal when there are fewer points than clusters. */
  function InitializeRepresentatives(st: State, numClusters: nat): (r: Result<State>)
    requires st.main.Valid()
    ensures r.Failure? <==> st.main.n < numClusters
    ensures r.Success? ==> r.value.main == st.main && r.value.centroids.Valid()
    ensures r.Success? ==> r.value.centroids.K() == numClusters
    ensures r.Success? ==> forall k :: 0 <= k < numClusters ==>
              r.value.centroids.xs[k] == st.main.xs[k] && r.value.centroids.ys[k] == st.main.ys[k]
  {
    match InitializeCentroids(st.main, numClusters)
    case Failure(e) => Failure(e)
    case Success(cs) => Success(st.(centroids := cs))
  }

  /** AssignedIds reads a dataset's coordinates and the ids past n only, so two
      datasets that differ only in their first n ids get the same assignment. */
  lemma AssignedIdsIgnoresPrefixIds(ds: PointSet, ds': PointSet, cs: Centroids)
    requires ds.Valid() && ds'.Valid() && cs.Valid()
    requires ds.n == ds'.n && ds.xs == ds'.xs && ds.ys == ds'.ys && |ds.ids| == |ds'.ids|
    requires forall i :: ds.n <= i < |ds.ids| ==> ds.ids[i] == ds'.ids[i]
    ensures AssignedIds(ds, cs) == AssignedIds(ds', cs)
  {
  }

  /** Lloyd's fixed point. Take a dataset whose ids came from an assignment and
      the centroids `cs` recomputed from it; if assigning with `cs` changes no
      id among the first n, then recomputing again gives `cs` back, and the
      assignment and centroids are each what the other would produce. */
  lemma ConvergedIsFixedPoint(before: PointSet, older: Centroids)
    requires before.Valid() && older.Valid()
    ensures var cs := Recomputed(before, older);
            var after := Assigned(before, cs);
            var final := Recomputed(after, cs);
            Changes(before.ids, after.ids, 0, before.n) == 0 ==>
              && final == cs
              && after.ids == AssignedIds(after, final)
              && final == Recomputed(after, final)
  {
    var cs := Recomputed(before, older);
    var after := Assigned(before, cs);
    if Changes(before.ids, after.ids, 0, before.n) == 0 {
      ChangesBounds(before.ids, after.ids, 0, before.n);
      assert before.ids[..before.n] == before.ids[0..before.n];
      assert after.ids[..before.n] == after.ids[0..before.n];
      RecomputedDependsOnPrefix(after, before, cs);
      RecomputeIdempotent(before, older);
      AssignedIdsIgnoresPrefixIds(after, before, cs);
    }
  }

  /** `main_loop`: starting from MAX_POINTS changes and 0 iterations, run
      assignment then recomputation, one iteration each, until `is_done`; the
      count is recorded as `used_iterations`. */
  method MainLoop(st0: State, maxIterations: int, timing0: Timing)
    returns (st: State, changes: int, iterations: int, timing: Timing)
    requires st0.main.Valid() && st0.centroids.Valid() && st0.centroids.K() >= 1
    ensures IsDone(changes, iterations, maxIterations)
    ensures 0 <= iterations <= (if maxIterations > 0 then maxIterations else 0)
    ensures iterations == 0 <==> maxIterations <= 0
    ensures timing == timing0.(usedIterations := iterations)
    ensures st.main.Valid() && st.main.n == st0.main.n && st.main.xs == st0.main.xs && st.main.ys == st0.main.ys
    ensures st.centroids.Valid() && st.centroids.K() == st0.centroids.K()
    ensures changes == 0 && iterations >= 2 ==>
              st.main.ids == AssignedIds(st.main, st.centroids) && st.centroids == Recomputed(st.main, st.centroids)
  {
    st := st0;
    changes := MAX_POINTS;
    iterations := 0;
    ghost var assignedFrom := st0.main;
    ghost var used := st0.centroids;
    ghost var older := st0.centroids;
    while !IsDone(changes, iterations, maxIterations)
      invariant 0 <= iterations <= (if maxIterations > 0 then maxIterations else 0)
      invariant iterations == 0 ==> changes == MAX_POINTS
      invariant st.main.Valid() && st.main.n == st0.main.n && st.main.xs == st0.main.xs && st.main.ys == st0.main.ys
      invariant st.centroids.Valid() && st.centroids.K() == st0.centroids.K()
      invariant assignedFrom.Valid() && used.Valid() && older.Valid()
      invariant iterations >= 1 ==>
                  && st.main == Assigned(assignedFrom, used)
                  && st.centroids == Recomputed(st.main, used)
                  && changes == Changes(assignedFrom.ids, st.main.ids, 0, assignedFrom.n)
      invariant iterations >= 2 ==> used == Recomputed(assignedFrom, older)
      decreases maxIterations - iterations
    {
      older := used;
      used := st.centroids;
      assignedFrom := st.main;
      var afterAssign;
      afterAssign, changes := AssignClusters(st);
      AssignedIdsInRange(st.main, st.centroids);
      st := CalculateCentroids(afterAssign);
      iterations := iterations + 1;
    }
    timing := timing0.(usedIterations := iterations);
    if changes == 0 && iterations >= 2 {
      ConvergedIsFixedPoint(assignedFrom, older);
    }
  }

  /** `main_finalize`: the timing totals and the iteration count are copied into
      the metrics; the test result is written only when a test file is
      configured (`compared` is what `test_results` returned), otherwise the
      metrics keep theirs. */
  function MainFinalize(metrics: Metrics, timing: Timing, compared: Option<int>): (m: Metrics)
    ensures m.assignmentSeconds == timing.assignmentSeconds && m.centroidsSeconds == timing.centroidsSeconds
    ensures m.maxIterationSeconds == timing.maxIterationSeconds && m.totalSeconds == timing.totalSeconds
    ensures m.usedIterations == timing.usedIterations
    ensures m.testResult == (if compared.Some? then compared.value else metrics.testResult)
    ensures m.runLabel == metrics.runLabel && m.numPoints == metrics.numPoints
    ensures m.numClusters == metrics.numClusters && m.maxIterations == metrics.maxIterations
    ensures m.numProcessors == metrics.numProcessors
  {
    var copied := metrics.(assignmentSeconds := timing.assignmentSeconds,
                           centroidsSeconds := timing.centroidsSeconds,
                           maxIterationSeconds := timing.maxIterationSeconds,
                           totalSeconds := timing.totalSeconds,
                           usedIterations := timing.usedIterations);
    if compared.Some? then copied.(testResult := compared.value) else copied
  }

  /** `finalize`: the loaded total becomes `num_points`, then `main_finalize`. */
  function Finalize(metrics: Metrics, timing: Timing, total: nat, compared: Option<int>): (m: Metrics)
    ensures m.numPoints == total
    ensures m.usedIterations == timing.usedIterations
    ensures m == MainFinalize(metrics.(numPoints := total), timing, compared)
  {
    MainFinalize(metrics.(numPoints := total), timing, compared)
  }
}
