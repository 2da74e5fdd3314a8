/** The scatter/gather round-trip programs: experiemental/mpi_test.c (one bare
    column in a 300-slot buffer), experimental/mpi_test_points.c and
    src/mpi_test_pointers.c (a three-column point set of MAX_POINTS slots, held
    by value and through a pointer respectively; the data moved is the same).
    Each loads six points, scatters them, adds 10 to every received x, gathers,
    and has the root check the first six x values. */
module MpiTests {
  import opened Points
  import opened Arithmetic
  import opened Collectives
  import opened Partition
  import opened KmeansMpi

  /** Number of points the programs load. */
  const TEST_POINTS: nat := 6
  /** Buffer size of the single-column program. */
  const COLUMN_CAPACITY: nat := 300

  /** The x the root expects back at i: the loaded 2i plus the 10 each rank adds. */
  function Expected(i: nat): real
  {
    2.0 * i as real + 10.0
  }

  /** The final loop on the root: passes exactly when each of the first `total`
      slots holds its expected value; every slot is checked, none skipped. */
  method CheckRoot(xs: seq<real>, total: nat) returns (passed: bool)
    requires total <= |xs|
    ensures passed <==> forall i :: 0 <= i < total ==> xs[i] == Expected(i)
  {
    passed := true;
    var i := 0;
    while i < total
      invariant 0 <= i <= total
      invariant passed <==> forall k :: 0 <= k < i ==> xs[k] == Expected(k)
    {
      if xs[i] != Expected(i) {
        passed := false;
      }
      i := i + 1;
    }
  }

  /** With six points the chunks never outgrow a buffer of at least twelve slots
      as long as there are no more ranks than slots. */
  lemma SpanFits(world: nat, capacity: nat)
    requires 1 <= world <= capacity && 2 * TEST_POINTS <= capacity
    ensures world * ChunkSize(TEST_POINTS, world) <= capacity
  {
    var c := ChunkSize(TEST_POINTS, world);
    ChunkPadding(TEST_POINTS, world);
    if world > TEST_POINTS && c > 1 {
      MulMonotone(1, c - 1, world);
      assert false;
    }
  }

  /** `load_dataset` of the point-set programs: point i is (2i, 3i) with no
      cluster, six points, the rest of the buffer as allocated (`stale`). */
  function LoadDataset(capacity: nat, stale: nat -> Point): (ps: PointSet)
    requires TEST_POINTS <= capacity
    ensures ps.Valid() && ps.n == TEST_POINTS && ps.Capacity() == capacity
    ensures forall i :: 0 <= i < TEST_POINTS ==>
              ps.xs[i] == 2.0 * i as real && ps.ys[i] == 3.0 * i as real && ps.ids[i] == NO_CLUSTER
    ensures forall i :: TEST_POINTS <= i < capacity ==> ps.At(i) == stale(i)
  {
    FromPoints(seq(TEST_POINTS, i => Point(2.0 * i as real, 3.0 * i as real, NO_CLUSTER)), capacity, stale)
  }

  /** `initialize`: the root loads, every rank learns the chunk by broadcast and
      allocates a chunk-sized node dataset; rank r's fresh slots hold
      `nodeStale(r)`. */
  function Setup(capacity: nat, world: nat, stale: nat -> Point, nodeStale: nat -> nat -> Point): (w: seq<Node>)
    requires 1 <= world <= capacity && 2 * TEST_POINTS <= capacity
    ensures Laid(w) && |w| == world && w[0].main == LoadDataset(capacity, stale)
    ensures w[0].chunk == ChunkSize(TEST_POINTS, world)
  {
    SpanFits(world, capacity);
    var chunks := Bcast(seq(world, r => if r == 0 then ChunkSize(TEST_POINTS, world) else Blank().chunk));
    var root := LoadDataset(capacity, stale);
    var locals := AllocateNodes(chunks, nodeStale);
    seq(world, r requires 0 <= r < world =>
      Node(if r == 0 then root else Blank().main,
           locals[r], Centroids([], []), chunks[r], false))
  }

  /** The loop over the node dataset: 10 is added to every received x. */
  function AddTen(w: seq<Node>): (a: seq<Node>)
    requires Laid(w)
    ensures Laid(a) && |a| == |w|
    ensures forall r :: 0 <= r < |w| ==> a[r] == w[r].(local := a[r].local)
    ensures forall r :: 0 <= r < |w| ==>
              a[r].local == w[r].local.(xs := a[r].local.xs)
              && forall j :: 0 <= j < w[0].chunk ==> a[r].local.xs[j] == w[r].local.xs[j] + 10.0
  {
    seq(|w|, r requires 0 <= r < |w| =>
      var l := w[r].local;
      w[r].(local := l.(xs := seq(|l.xs|, j requires 0 <= j < |l.xs| => l.xs[j] + 10.0))))
  }

  /** `assign_clusters` / `assign` of the point-set programs. */
  function Shift(w: seq<Node>): (g: seq<Node>)
    requires Laid(w)
    ensures Laid(g) && |g| == |w|
  {
    GatherDataset(AddTen(ScatterDataset(w)))
  }

  /** One slot of the root after the round: every slot a chunk covers comes back
      with 10 added to its x, and y and id as they were. */
  lemma ShiftAt(w: seq<Node>, i: nat)
    requires Laid(w) && i < |w| * w[0].chunk
    ensures i < w[0].main.Capacity()
    ensures var m := Shift(w)[0].main;
            m.xs[i] == w[0].main.xs[i] + 10.0 && m.ys[i] == w[0].main.ys[i] && m.ids[i] == w[0].main.ids[i]
  {
    var c := w[0].chunk;
    Decompose(i, c, |w|);
    var r, j := i / c, i % c;
    ScatterDatasetAt(w, r, j);
    GatherDatasetAt(AddTen(ScatterDataset(w)), r, j);
  }

  /** The point-set programs pass on every world size up to the buffer size: the
      root gets 2i + 10 back at each of the six points, with y and cluster id
      untouched; padding slots up to world*chunk get 10 added to whatever the
      allocation left in them, and the rest of the buffer is left alone. */
  lemma PointsProgramPasses(world: nat, stale: nat -> Point, nodeStale: nat -> nat -> Point)
    requires 1 <= world <= MAX_POINTS
    ensures var before := LoadDataset(MAX_POINTS, stale);
            var after := Shift(Setup(MAX_POINTS, world, stale, nodeStale))[0].main;
            var span := world * ChunkSize(TEST_POINTS, world);
            && after.n == TEST_POINTS && after.Capacity() == MAX_POINTS && span <= MAX_POINTS
            && (forall i :: 0 <= i < TEST_POINTS ==>
                  after.xs[i] == Expected(i) && after.ys[i] == before.ys[i] && after.ids[i] == before.ids[i])
            && (forall i :: TEST_POINTS <= i < span ==> after.xs[i] == stale(i).x + 10.0 && after.ys[i] == stale(i).y)
            && (forall i :: span <= i < MAX_POINTS ==> after.At(i) == before.At(i))
  {
    var w := Setup(MAX_POINTS, world, stale, nodeStale);
    var span := world * ChunkSize(TEST_POINTS, world);
    ChunkPadding(TEST_POINTS, world);
    forall i | 0 <= i < span
      ensures Shift(w)[0].main.xs[i] == w[0].main.xs[i] + 10.0
      ensures Shift(w)[0].main.ys[i] == w[0].main.ys[i] && Shift(w)[0].main.ids[i] == w[0].main.ids[i]
    {
      ShiftAt(w, i);
    }
    forall i | span <= i < MAX_POINTS
      ensures Shift(w)[0].main.At(i) == w[0].main.At(i)
    {
      GatherDatasetAbove(AddTen(ScatterDataset(w)), i);
    }
  }

  /** `initialize` of the single-column program: slot i holds 2i for the six
      points and whatever `malloc` left elsewhere. */
  function LoadColumn(stale: seq<real>): (xs: seq<real>)
    requires |stale| == COLUMN_CAPACITY
    ensures |xs| == COLUMN_CAPACITY
    ensures forall i :: 0 <= i < TEST_POINTS ==> xs[i] == 2.0 * i as real
    ensures forall i :: TEST_POINTS <= i < COLUMN_CAPACITY ==> xs[i] == stale[i]
  {
    seq(COLUMN_CAPACITY, i requires 0 <= i < COLUMN_CAPACITY => if i < TEST_POINTS then 2.0 * i as real else stale[i])
  }

  /** `assign_clusters` of the single-column program: scatter the column, add 10
      on every rank, gather it back into the same buffer. */
  function ShiftColumn(root: seq<real>, world: nat): (g: seq<real>)
    requires 1 <= world && world * ChunkSize(TEST_POINTS, world) <= |root|
    ensures |g| == |root|
  {
    var c := ChunkSize(TEST_POINTS, world);
    var parts := Scatter(root, c, world);
    var added := seq(world, r requires 0 <= r < world => seq(c, j requires 0 <= j < c => parts[r][j] + 10.0));
    Gather(added, c, root)
  }

  /** The single-column program passes on every world size up to 300 ranks: the
      root's first six slots come back as 2i + 10. */
  lemma ColumnProgramPasses(world: nat, stale: seq<real>)
    requires 1 <= world <= COLUMN_CAPACITY && |stale| == COLUMN_CAPACITY
    ensures world * ChunkSize(TEST_POINTS, world) <= COLUMN_CAPACITY
    ensures var after := ShiftColumn(LoadColumn(stale), world);
            forall i :: 0 <= i < TEST_POINTS ==> after[i] == Expected(i)
  {
    SpanFits(world, COLUMN_CAPACITY);
    var c := ChunkSize(TEST_POINTS, world);
    var root := LoadColumn(stale);
    var parts := Scatter(root, c, world);
    var added := seq(world, r requires 0 <= r < world => seq(c, j requires 0 <= j < c => parts[r][j] + 10.0));
    ChunkPadding(TEST_POINTS, world);
    forall i | 0 <= i < TEST_POINTS
      ensures ShiftColumn(root, world)[i] == Expected(i)
    {
      Decompose(i, c, world);
      ScatterAt(root, c, world, i / c, i % c);
      GatherAt(added, c, root, i / c, i % c);
    }
  }
}
